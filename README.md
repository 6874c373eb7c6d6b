# Account lifecycle of the mod catalogue site, in Dafny

This project models the account side of the mod catalogue site. That side has two parts.

The serverless backend is four cloud-function handlers:

- `auth` registers, logs in and reads the session's user.
- `account` handles password reset by emailed code, and account deletion.
- `subscriptions` manages the update-notification list and its link tokens.
- `donations` records donations and lists a user's history and total.

The browser client has these parts:

- the `authService` token store;
- the sign-in dialog;
- the three-step password-reset dialog;
- the notification switch;
- the unsubscribe-link page;
- the background chooser with its `localStorage` keys;
- the catalogue search filter.

Each handler is modelled twice.

1. A pure function over the database, `Tables`, gives the outcome: the new tables and the response's status and JSON payload. The database holds three tables:
   - users, keyed by stripped email;
   - sessions, keyed by token;
   - donations, in insertion order.
2. A method performs the same steps in place on a `Db` object. It is proved to reach exactly the function's outcome.

The function contracts state the following:

- the order in which the checks fire;
- that every error leaves the tables unchanged;
- the full new state on success;
- that the table invariant `Schema.Valid` is preserved.

Cross-handler lemmas in `Lifecycle` follow one scenario through several calls:

- register then log in;
- a code issued, used once, then refused;
- a reset that ends every session;
- a deletion that logs out;
- a subscription link that unsubscribes.

Each client component is a class whose fields are the component's state. An `async` handler becomes two methods:

- `Start…` runs up to the `await` and returns the request the browser sends.
- `Finish…` takes the outcome of `fetch` as a `Reply` and applies the handler's remaining setters. A `Reply` is one of:
  - an ok body;
  - a non-ok status with an optional `error` field;
  - a thrown exception.

The `Wiring` lemmas connect the two sides:

- each request the client builds is dispatched to the backend action the client means;
- what that action answers is what the client stores or shows.

Time is an integer number of seconds. Fresh tokens, reset-code digits and whether the email was sent are parameters.

## Model

| member | source | states |
|---|---|---|
| Schema.HashIsInjective | backend/auth/index.py:16-18 | two passwords with the same hash are the same password |
| Schema.InsertKeepsValid | backend/auth/index.py:102-119 | inserting a user with the next SERIAL id and no reset code, plus one session, keeps ids unique, ids below the counter, reset columns paired and donations positive |
| Schema.UpdateRowKeepsValid | backend/account/index.py:136-145 | rewriting one user row with the same id and paired reset columns keeps the table invariant |
| Schema.SessionOwner | backend/donations/index.py:50-69 | the session join yields a user exactly when the token's session exists, `expires_at > now` and its user row exists, and that user's id is the session's user_id |
| Schema.DonationsOf | backend/donations/index.py:111-121 | `WHERE user_id = %s`: exactly the rows of that user, none added |
| Schema.DonationsNotOf | backend/account/index.py:363 | `DELETE FROM donations WHERE user_id = %s`: exactly the rows of other users remain |
| Schema.DonationsSplit | backend/account/index.py:362-364 | a user's rows and the other users' rows together are the whole donation table, as a multiset |
| AuthBackend.Register | backend/auth/index.py:51-133 | 400 for an empty stripped email or password, then for a password under 6, then for email equal to password ignoring case, then for an existing email; every 400 leaves the tables unchanged; 201 exactly when all checks pass, adding exactly one user with the password's hash and a session expiring 30 days later, and answering that token |
| AuthBackend.AddUser | backend/auth/index.py:102-133 | the two INSERTs of a successful registration and the 201 body they produce |
| AuthBackend.Login | backend/auth/index.py:135-189 | 400 for empty fields, 401 when no user has that email and password hash; 200 exactly when one does, adding one session expiring 30 days later and keeping every earlier session |
| AuthBackend.OpenSession | backend/auth/index.py:166-189 | the session INSERT of a successful login adds one session for that user expiring 30 days later and keeps every other session |
| AuthBackend.CurrentUser | backend/auth/index.py:191-237 | 401 without a token, 401 when no unexpired session matches; otherwise 200 with that session's user; never another status |
| AuthBackend.Handle | backend/auth/index.py:24-244 | OPTIONS is the preflight, GET is the session lookup, POST register and login go to their actions, anything else is 405; validity is preserved |
| AuthBackend.HandleRegister | backend/auth/index.py:51-133 | performing the checks and INSERTs in place gives exactly `Register`'s outcome |
| AuthBackend.InsertUser | backend/auth/index.py:102-133 | the two INSERTs in place give exactly `AddUser`'s outcome |
| AuthBackend.HandleLogin | backend/auth/index.py:135-189 | login in place gives exactly `Login`'s outcome |
| AuthBackend.InsertSession | backend/auth/index.py:166-189 | the session INSERT in place gives exactly `OpenSession`'s outcome |
| AuthBackend.Handler | backend/auth/index.py:24-244 | the in-place handler gives exactly `Handle`'s outcome |
| AccountBackend.GenerateResetCode | backend/account/index.py:24-25 | the code has six characters, all digits, each the decimal digit of its draw |
| AccountBackend.ResetCodeDeterminesDraws | backend/account/index.py:24-25 | different draws give different codes |
| AccountBackend.RequestReset | backend/account/index.py:107-160 | 400 for an empty email; 200 with the generic message and no change for an unknown email; for a known email, only that row changes, storing the generated code with expiry now + 15 minutes, and the body echoes whether the mail was sent |
| AccountBackend.IssueCode | backend/account/index.py:136-160 | the UPDATE sets the two reset columns of that row and nothing else, and answers 200 |
| AccountBackend.VerifyResetCode | backend/account/index.py:162-232 | in order: missing fields 400, unknown user 404, no stored code 400, expired (`now > expires`) 400 "code expired", a stored unexpired code that differs 400 "invalid code"; 200 exactly when the stored code matches and has not expired; only these statuses occur |
| AccountBackend.ResetPassword | backend/account/index.py:234-326 | in order: missing fields, length under 6, email equal to password ignoring case, unknown user 404, missing or mismatched code 400 "invalid code", then a matching code with no expiry 500 (the comparison raises) or past its expiry 400 "code expired"; only 200, 400, 404 and 500 occur, and 500 never on valid tables; every error leaves the tables unchanged; 200 exactly when all pass, and then the hash is replaced, the code cleared and every session of that user deleted |
| AccountBackend.CheckCodeAndReset | backend/account/index.py:287-326 | for a known user: a differing code 400 "invalid code", a matching code without expiry 500, a past expiry 400 "code expired"; 200 exactly when the code is accepted, with the reset applied; errors leave the tables unchanged |
| AccountBackend.ApplyReset | backend/account/index.py:307-326 | the UPDATE and the session DELETE of a successful reset, and nothing else |
| AccountBackend.DeleteAccount | backend/account/index.py:328-375 | 401 without a token and 401 without an unexpired session; 200 exactly otherwise, removing that user's sessions, donations and row and nothing else |
| AccountBackend.RemoveAccount | backend/account/index.py:362-375 | the three DELETEs remove exactly that user's sessions, donations and row |
| AccountBackend.Handle | backend/account/index.py:76-385 | OPTIONS preflight, the three POST actions, DELETE, otherwise 405; validity is preserved |
| AccountBackend.HandleRequestReset | backend/account/index.py:107-160 | in place, exactly `RequestReset`'s outcome |
| AccountBackend.HandleResetPassword | backend/account/index.py:234-326 | in place, exactly `ResetPassword`'s outcome |
| AccountBackend.ReplacePassword | backend/account/index.py:307-326 | in place, exactly `ApplyReset`'s outcome |
| AccountBackend.HandleDeleteAccount | backend/account/index.py:328-375 | in place, exactly `DeleteAccount`'s outcome |
| AccountBackend.Handler | backend/account/index.py:76-385 | the in-place handler gives exactly `Handle`'s outcome |
| SubscriptionsBackend.Subscribe | backend/subscriptions/index.py:49-99 | 400 for an empty email, 404 for an unknown one, both unchanged; 200 exactly for a known email, setting `subscribed_to_updates` and replacing the link token with the fresh one on that row only |
| SubscriptionsBackend.MarkSubscribed | backend/subscriptions/index.py:78-99 | the UPDATE of a successful subscribe touches that row only |
| SubscriptionsBackend.Targets | backend/subscriptions/index.py:115-128 | the rows the UPDATE matches: by link token when one is given, otherwise by email |
| SubscriptionsBackend.ClearSubscribed | backend/subscriptions/index.py:115-128 | exactly the matched rows get `subscribed_to_updates = false`; all other rows and all keys are unchanged |
| SubscriptionsBackend.Unsubscribe | backend/subscriptions/index.py:101-153 | 400 with neither token nor email; 404 and no change when no row matched; 200 exactly when some row matched, clearing the flag on the matched rows |
| SubscriptionsBackend.Status | backend/subscriptions/index.py:155-195 | 400 for an empty email, 404 for an unknown one; 200 otherwise, reporting the flag (NULL as false) and the stored link token; read-only |
| SubscriptionsBackend.TokenTakesPrecedence | backend/subscriptions/index.py:115-128 | with a link token, the email sent alongside makes no difference to the outcome |
| SubscriptionsBackend.UnsubscribeIsIdempotent | backend/subscriptions/index.py:115-153 | unsubscribing again with the same inputs gives the same response and the same tables, since the link token is not consumed |
| SubscriptionsBackend.Handle | backend/subscriptions/index.py:18-205 | OPTIONS preflight, the three POST actions, everything else 405; validity is preserved |
| SubscriptionsBackend.HandleSubscribe | backend/subscriptions/index.py:49-99 | in place, exactly `Subscribe`'s outcome |
| SubscriptionsBackend.HandleUnsubscribe | backend/subscriptions/index.py:101-153 | in place, exactly `Unsubscribe`'s outcome, branching on the matched-row count |
| SubscriptionsBackend.Handler | backend/subscriptions/index.py:18-205 | the in-place handler gives exactly `Handle`'s outcome |
| DonationsBackend.Views | backend/donations/index.py:111-121 | the listed rows keep their order, one view per row with the same id, amount, status and date |
| DonationsBackend.PrependNewest | backend/donations/index.py:111-121 | a row no older than the head of a newest-first list can be put in front |
| DonationsBackend.InsertByDate | backend/donations/index.py:111-121 | inserting into a newest-first list keeps it newest first and adds exactly that row |
| DonationsBackend.NewestFirst | backend/donations/index.py:111-121 | `ORDER BY created_at DESC`: the result is newest first and a permutation of the rows |
| DonationsBackend.CompletedTotal | backend/donations/index.py:123-130 | the `SUM(amount) ... status = 'completed'` total is never negative when every amount is positive |
| DonationsBackend.TotalPositiveIffCompleted | backend/donations/index.py:123-148 | with positive amounts, the total is positive exactly when some row is completed |
| DonationsBackend.CompletedTotalAppend | backend/donations/index.py:87-130 | appending a row adds its amount to the total when it is completed, and nothing otherwise |
| DonationsBackend.DonationsOfAppend | backend/donations/index.py:87-121 | appending a row of the user appends it to that user's rows; another user's row leaves them alone |
| DonationsBackend.CompletedTotalOfUser | backend/donations/index.py:123-148 | in a valid database, a user's total is positive exactly when they have a completed donation |
| DonationsBackend.MineArePositive | backend/donations/index.py:74-85 | in a valid database every row of a user has a positive amount |
| DonationsBackend.ListDonations | backend/donations/index.py:111-148 | GET lists only the user's rows newest first, with the completed total, and `has_donated` exactly when the total is positive |
| DonationsBackend.CreateDonation | backend/donations/index.py:73-109 | 400 and no change for a missing, non-numeric or non-positive amount; otherwise exactly one completed row for the user is appended with the next id, answered 201 |
| DonationsBackend.Handle | backend/donations/index.py:14-159 | OPTIONS preflight; 401 without a token before anything else; 401 without an unexpired session for every method; POST creates, GET lists, others 405; only POST changes the tables |
| DonationsBackend.DonationIsListed | backend/donations/index.py:87-148 | a positive amount creates a donation whose view is in the donor's listing afterwards; the listing grows by one, the total by the amount, and `has_donated` is true |
| DonationsBackend.AppendedIsListed | backend/donations/index.py:113-146 | a row appended to a user's rows appears in their newest-first listing |
| DonationsBackend.HandleCreateDonation | backend/donations/index.py:73-109 | the INSERT in place gives exactly `CreateDonation`'s outcome |
| DonationsBackend.Handler | backend/donations/index.py:14-159 | the in-place handler gives exactly `Handle`'s outcome |
| Lifecycle.RegisterThenLogin | backend/auth/index.py:102-172 | after a successful registration the same email and password log in with 200 |
| Lifecycle.RegisterThenWrongPassword | backend/auth/index.py:149-164 | after a registration every other non-blank password is refused with 401 |
| Lifecycle.RegisteredSessionLive | backend/auth/index.py:113-218 | the registration's session is accepted exactly until its expiry 30 days later |
| Lifecycle.RegisteredTables | backend/auth/index.py:102-133 | names the tables after a registration, with what `Register` promises about them |
| Lifecycle.SessionExpiryIsStrict | backend/auth/index.py:203-218 | a session is refused at the very second it expires |
| Lifecycle.ResetCodeWindow | backend/account/index.py:136-212 | the issued code is accepted exactly while `later <= now + 15 minutes` |
| Lifecycle.ResetCodeIsSingleUse | backend/account/index.py:287-316 | after a successful reset no code verifies and no second reset succeeds |
| Lifecycle.ResetEndsSessions | backend/account/index.py:315 | a reset ends every session of that user (the lookup answers 401) and keeps every other user's session exactly |
| Lifecycle.ResetThenLogin | backend/account/index.py:307-316 | after a reset the new password logs in |
| Lifecycle.ResetRevokesOldPassword | backend/account/index.py:307-316 | after a reset every other password, the old one included, is refused |
| Lifecycle.ResetTables | backend/account/index.py:307-316 | names the tables after a reset, with what `ResetPassword` promises about them |
| Lifecycle.DeleteLogsOut | backend/account/index.py:362-364 | after a deletion the token is refused and the email no longer logs in |
| Lifecycle.SubscribeThenUnsubscribe | backend/subscriptions/index.py:78-153 | the link token handed out by subscribe unsubscribes that user, whatever email is sent along, and status then reads false |
| Lifecycle.ResubscribeRevokesOldLink | backend/subscriptions/index.py:78-137 | subscribing again replaces the token, so an old link that only this user held answers 404 |
| ModSearch.FilteredMods | src/pages/Index.tsx:18-23 | the listing is never longer than the catalogue and every listed mod passes the predicate |
| ModSearch.FilteredMembership | src/pages/Index.tsx:18-23 | a mod is listed exactly when it is in the catalogue and its title or author contains the query ignoring case and its game is selected or "all" is |
| ModSearch.FilteredIsSubsequence | src/pages/Index.tsx:18 | the listing keeps the catalogue's order |
| ModSearch.EmptyQueryKeepsGame | src/pages/Index.tsx:19-21 | an empty query lists every mod of the selected game |
| ModSearch.EmptyQueryAllGames | src/pages/Index.tsx:15-21 | with the initial query "" and game "all" the whole catalogue is listed, in order |
| ModSearch.AllGamesIgnoresGame | src/pages/Index.tsx:21 | "all" imposes no game restriction |
| ModSearch.QueryCaseInsensitive | src/pages/Index.tsx:19-20 | the query's case does not change the listing |
| ModSearch.ModCaseInsensitive | src/pages/Index.tsx:19-20 | the case of a mod's title and author does not change whether it is kept |
| Browser.LocalStorage.GetItem | src/lib/auth.ts:96-98 | `getItem` answers the stored string exactly when the key is present |
| Browser.LocalStorage.SetItem | src/lib/auth.ts:43-44 | `setItem` updates that key only |
| Browser.LocalStorage.RemoveItem | src/lib/auth.ts:92-94 | `removeItem` removes that key only |
| Browser.ReplyOf | src/lib/auth.ts:38-45 | the client sees an ok reply exactly for a 2xx status, with the body as sent; otherwise the status and the body's `error` |
| Browser.FailureToast | src/components/PasswordResetDialog.tsx:44-47 | a failure toast shows the body's non-empty error, else the fallback, and the crash message for an exception |
| AuthClient.AuthService.GetToken | src/lib/auth.ts:96-98 | answers the stored `auth_token` exactly when present, reading only |
| AuthClient.AuthService.Register | src/lib/auth.ts:29-46 | sends the register body; on ok stores the body's token and returns the body; on non-ok fails with the server error or "Registration failed" and leaves the token; on an exception fails with its message |
| AuthClient.AuthService.Login | src/lib/auth.ts:48-65 | the same for login, with fallback "Login failed" |
| AuthClient.AuthService.Authenticate | src/lib/auth.ts:38-64 | the shared tail: throw on non-ok, otherwise store the token |
| AuthClient.AuthService.GetCurrentUser | src/lib/auth.ts:67-90 | without a truthy token, no request and null; otherwise a GET with the token; ok returns `data.user` and keeps the token; non-ok or an exception removes the token and returns null |
| AuthClient.AuthService.Logout | src/lib/auth.ts:92-94 | removes the token and nothing else |
| AuthClient.AuthService.GetDonationStatus | src/lib/auth.ts:100-116 | without a token fails "Not authenticated" with no request; otherwise a GET with the token; ok returns the body, non-ok "Failed to get donation status"; never touches the token |
| AuthClient.AuthService.CreateDonation | src/lib/auth.ts:118-135 | without a token fails "Not authenticated" with no request; otherwise a POST of the amount; non-ok fails with the server error or "Donation failed"; never touches the token |
| AuthClient.LogoutThenCurrentUser | src/lib/auth.ts:67-94 | after logout, getCurrentUser sends nothing and answers null |
| AuthDialogFlow.AuthDialog.constructor | src/components/AuthDialog.tsx:17-24 | login mode, verification hidden, all fields and messages empty, not loading |
| AuthDialogFlow.AuthDialog.SelectTab | src/components/AuthDialog.tsx:135 | the tabs, reachable only while verification is hidden, change only the mode; every other field is stated unchanged |
| AuthDialogFlow.AuthDialog.EditEmail | src/components/AuthDialog.tsx:149-176 | the email input of the main form changes only the email; every other field is stated unchanged |
| AuthDialogFlow.AuthDialog.EditPassword | src/components/AuthDialog.tsx:160-187 | the password input changes only the password; every other field is stated unchanged |
| AuthDialogFlow.AuthDialog.EditCode | src/components/AuthDialog.tsx:102-103 | the code input of the verification form changes only the code; every other field is stated unchanged |
| AuthDialogFlow.AuthDialog.StartSubmit | src/components/AuthDialog.tsx:26-40 | only when not loading: clears error and success message, sets loading, sends login or register for the current fields; mode, fields, code, verification, open state and success signals unchanged |
| AuthDialogFlow.AuthDialog.FinishSubmit | src/components/AuthDialog.tsx:33-48 | login success signals once, closes and clears email and password; register success sets the success message and shows verification without closing; a failure sets the error and changes nothing else; loading always ends; the stored token follows `authService` |
| AuthDialogFlow.AuthDialog.FinishLogin | src/components/AuthDialog.tsx:33-46 | an ok reply stores the token, signals success once, closes and clears email and password; otherwise the error is the thrown message or the server's error or "Login failed", and nothing else changes |
| AuthDialogFlow.AuthDialog.FinishRegister | src/components/AuthDialog.tsx:39-46 | an ok reply stores the token, sets the success message from the body and shows verification, remembering the email; otherwise the error is the thrown message or the server's error or "Registration failed", and nothing else changes |
| AuthDialogFlow.AuthDialog.SubmitVerifyAsWritten | src/components/AuthDialog.tsx:51-69 | as written: the verify call throws before any request, so the error is set and the dialog stays on the verification form, open, with no success signal; the fields, mode and success message are unchanged |
| AuthDialogFlow.AuthDialog.StartVerify | src/components/AuthDialog.tsx:51-57 | clears the error, sets loading, and sends the email kept from registration with the code |
| AuthDialogFlow.AuthDialog.FinishVerify | src/components/AuthDialog.tsx:57-68 | success signals once, closes, clears email, password and code and hides verification; failure sets the error only; mode and success message unchanged in both cases; loading ends |
| PasswordResetFlow.PasswordResetDialog.constructor | src/components/PasswordResetDialog.tsx:16-20 | starts at the email step with empty fields, not loading |
| PasswordResetFlow.PasswordResetDialog.EditEmail | src/components/PasswordResetDialog.tsx:149-156 | only on the email step and not loading; changes only the email |
| PasswordResetFlow.PasswordResetDialog.EditCode | src/components/PasswordResetDialog.tsx:187-195 | only on the code step and not loading; changes only the code |
| PasswordResetFlow.PasswordResetDialog.EditPassword | src/components/PasswordResetDialog.tsx:235-243 | only on the password step and not loading; changes only the password |
| PasswordResetFlow.PasswordResetDialog.Back | src/components/PasswordResetDialog.tsx:199-206 | from the code step, when not loading, back to the email step keeping email and code |
| PasswordResetFlow.PasswordResetDialog.StartRequestReset | src/components/PasswordResetDialog.tsx:22-36 | sets loading and sends `request_reset` with the email |
| PasswordResetFlow.PasswordResetDialog.FinishRequestReset | src/components/PasswordResetDialog.tsx:38-50 | ok moves to the code step with the success toast; otherwise stays with the error toast; loading ends |
| PasswordResetFlow.PasswordResetDialog.StartVerifyCode | src/components/PasswordResetDialog.tsx:53-68 | sends `verify_reset_code` with the email the code went to and the entered code |
| PasswordResetFlow.PasswordResetDialog.FinishVerifyCode | src/components/PasswordResetDialog.tsx:70-82 | ok moves to the password step with the success toast; otherwise stays with the error toast; loading ends |
| PasswordResetFlow.PasswordResetDialog.StartResetPassword | src/components/PasswordResetDialog.tsx:85-107 | a password under 6 characters raises the toast with no request and no loading; otherwise sends `reset_password` with the email the code went to and the accepted code |
| PasswordResetFlow.PasswordResetDialog.FinishResetPassword | src/components/PasswordResetDialog.tsx:109-125 | ok closes, returns to the email step and clears all three fields; otherwise stays on the password step; loading ends |
| SubscriptionPanel.SubscribedField | src/components/SubscriptionSettings.tsx:38 | `data.subscribed \|\| false`: true exactly when the body carries a true `subscribed` |
| SubscriptionPanel.SubscriptionSettings.constructor | src/components/SubscriptionSettings.tsx:15-20 | starts unsubscribed and loading, with the status check for the user's email in flight |
| SubscriptionPanel.SubscriptionSettings.PendingCall | src/components/SubscriptionSettings.tsx:24-60 | every request goes to the subscriptions endpoint with the user's email |
| SubscriptionPanel.SubscriptionSettings.FinishStatusCheck | src/components/SubscriptionSettings.tsx:35-44 | an ok reply sets the switch from the body; otherwise it is unchanged; loading ends; no toast |
| SubscriptionPanel.SubscriptionSettings.StartToggle | src/components/SubscriptionSettings.tsx:47-60 | only when not loading: sets loading and sends `subscribe` for true, `unsubscribe` for false |
| SubscriptionPanel.SubscriptionSettings.FinishToggle | src/components/SubscriptionSettings.tsx:62-78 | the switch takes the requested value only on ok, with the matching toast; otherwise unchanged with the error toast; loading ends |
| UnsubscribeLink.UnsubscribePage.constructor | src/pages/Unsubscribe.tsx:12-13 | starts loading with an empty message |
| UnsubscribeLink.UnsubscribePage.Mount | src/pages/Unsubscribe.tsx:15-37 | no truthy token: error with the invalid-link message and no request; otherwise sends only `action` and `token` and stays loading |
| UnsubscribeLink.UnsubscribePage.Resolve | src/pages/Unsubscribe.tsx:40-52 | ok gives success; non-ok gives error with the server message or the fallback; an exception gives error; never loading again |
| BackgroundTheme.ImageBackground | src/components/BackgroundSettings.tsx:143-148 | the image background always contains `url(` |
| BackgroundTheme.SavedBackground | src/components/BackgroundSettings.tsx:100-121 | a saved non-empty gradient wins; otherwise a saved non-empty image as `url(<img>) center/cover fixed`; none exactly when neither is saved |
| BackgroundTheme.GradientRestores | src/components/BackgroundSettings.tsx:100-136 | a remembered non-empty gradient is what is restored |
| BackgroundTheme.ImageRestores | src/components/BackgroundSettings.tsx:146-148 | a remembered image is what is restored |
| BackgroundTheme.PresetsRestore | src/components/BackgroundSettings.tsx:18-128 | every preset is non-empty, so it is restored as chosen |
| BackgroundTheme.ApplyBackground | src/components/BackgroundSettings.tsx:52-77 | `Applied`: full height, no margin, covering classes removed from body and root when present, background set and fixed; size cover and position centre only for a value containing `url(`, otherwise those two unchanged |
| BackgroundTheme.ResetBackground | src/components/BackgroundSettings.tsx:80-88 | `WasReset`: clears the four background fields and adds `bg-background` to body only; heights, margin and root classes unchanged |
| BackgroundTheme.BackgroundSettings.constructor | src/components/BackgroundSettings.tsx:94-97 | the custom field starts with the first preset gradient and no file is chosen |
| BackgroundTheme.BackgroundSettings.Restore | src/components/BackgroundSettings.tsx:100-121 | the whole page is `Applied` with what `SavedBackground` gives, and left unchanged when it gives none; storage, gradient text and chosen file unchanged |
| BackgroundTheme.BackgroundSettings.ApplyPreset | src/components/BackgroundSettings.tsx:123-128 | stores the preset as the gradient, removes the image key, and the page is `Applied` with it; the preset is then what is restored and at most one key is remembered |
| BackgroundTheme.BackgroundSettings.EditCustomGradient | src/components/BackgroundSettings.tsx:207-208 | changes only the custom field |
| BackgroundTheme.BackgroundSettings.ApplyCustomGradient | src/components/BackgroundSettings.tsx:130-136 | blank after trimming leaves storage and the whole page unchanged; otherwise the untrimmed text is stored, the image key removed, the page `Applied` with it, and at most one key is remembered |
| BackgroundTheme.BackgroundSettings.SelectFile | src/components/BackgroundSettings.tsx:138-141 | a chosen file is noted; no file changes nothing |
| BackgroundTheme.BackgroundSettings.FileLoaded | src/components/BackgroundSettings.tsx:143-149 | an empty result leaves storage and the whole page unchanged; a non-empty data URL is stored as the image, the gradient key removed, the page `Applied` with it, covering and centred, and at most one key is remembered |
| BackgroundTheme.BackgroundSettings.ResetAll | src/components/BackgroundSettings.tsx:155-160 | removes both keys, the page `WasReset` and the chosen file is cleared; nothing is restored afterwards and no key is remembered |
| Wiring.AuthCallsServed | src/lib/auth.ts:30-77 | the register, login and profile requests reach `Register`, `Login` and `CurrentUser` |
| Wiring.LoginStoresSessionToken | src/lib/auth.ts:57-64 | an ok login reply carries the new session's token, which the client stores; a refused one carries an error and changes nothing |
| Wiring.RegisterStoresSessionToken | src/lib/auth.ts:38-45 | the same for registration, whose success is 201 |
| Wiring.StoredTokenIdentifiesUser | src/lib/auth.ts:79-85 | the profile lookup returns a user exactly while the session is live, and it is the session's owner |
| Wiring.RequestResetCallServed | src/components/PasswordResetDialog.tsx:27-36 | the first request of the reset dialog reaches `RequestReset` |
| Wiring.VerifyCodeCallServed | src/components/PasswordResetDialog.tsx:58-68 | the second reaches `VerifyResetCode` |
| Wiring.ResetPasswordCallServed | src/components/PasswordResetDialog.tsx:96-107 | the third reaches `ResetPassword` |
| Wiring.CodeStepFollowsHandler | src/components/PasswordResetDialog.tsx:72-74 | the dialog moves to the password step exactly when the handler accepts the code |
| Wiring.PanelCallsServed | src/components/SubscriptionSettings.tsx:24-60 | the status and toggle requests reach `Status`, `Subscribe` and `Unsubscribe` by email |
| Wiring.StatusSwitchAgrees | src/components/SubscriptionSettings.tsx:37-39 | the switch after a status check shows the user's stored flag |
| Wiring.SwitchOnPersists | src/components/SubscriptionSettings.tsx:64-65 | a successful switch-on is what the next status check shows |
| Wiring.SwitchOffPersists | src/components/SubscriptionSettings.tsx:64-65 | switch-off succeeds exactly for a known email, and the next status check shows off |
| Wiring.LinkCallServed | src/pages/Unsubscribe.tsx:29-38 | the page's request reaches `Unsubscribe` by token with no email |
| Wiring.LinkPageOutcome | src/pages/Unsubscribe.tsx:42-48 | the page succeeds exactly when some user holds the stripped link token; otherwise it shows one of the handler's two messages |
| Wiring.DonationCallsServed | src/lib/auth.ts:104-129 | with a live session the donation requests reach the listing and the creation for the session's user |
| Wiring.DonationCallsNeedSession | src/lib/auth.ts:131-134 | without a live session a donation is refused 401, with the message the client shows, and nothing changes |
| Text.Strip | backend/auth/index.py:57-58 | the result is the slice of the input that remains after removing only leading and trailing whitespace: everything before and after it is whitespace, it has none at either end, and it is empty exactly when the input is all whitespace |
| Text.StripIsUnique | backend/auth/index.py:57-58 | any slice that drops only whitespace around it and keeps none at its ends is the stripped string, so the contract fixes the result |
| Text.StripIdempotent | backend/auth/index.py:57-58 | stripping twice is stripping once |
| Text.Lower | src/pages/Index.tsx:19-20 | lower-casing keeps the length and maps each character |
| Text.LowerIdempotent | src/pages/Index.tsx:19-20 | lower-casing twice is lower-casing once |

## Left out

- SMTP delivery (`send_email`, `send_password_reset_email`) is not modelled. It is I/O; only its boolean result appears, as `emailSent`.
- psycopg2 connections, cursors, commits and SQL text are not modelled. The tables are maps and a sequence.
- The `DATABASE_URL` check and its 500 answer are left out, as is any uncaught database exception.
- The models of `generate_token` (`secrets.token_urlsafe`), `generate_unsubscribe_token` and `random.randint` are parameters: a fresh token, six digits. SHA-256 is an injective constructor over the password.
- The clock (`datetime.now()`, `NOW()`) is an integer number of seconds given to each call.
- The CORS headers of every response and of the preflight are not modelled. Only the status and the JSON payload are.
  - The subscriptions handler advertises GET in its preflight but answers it 405. The model follows the answer.
- Account and subscriptions address the users table by its schema-qualified name, while auth and donations use the bare name. The model has one users table.
- Text.Strip: whitespace is space and `\t`–`\r`. Python's `strip()` also removes `\x1c`–`\x1f` and the Unicode spaces; JavaScript's `trim()` removes the Unicode spaces but not `\x1c`–`\x1f`.
- Request bodies are maps from field name to string. A body that is missing or is not JSON makes `json.loads` raise, and a field that is present but not a string (`{"email": null}`) makes `.strip()` raise; the runtime then answers 500. Neither is modelled.
- Text.Lower: folds only the ASCII letters A–Z. `lower()` and `toLowerCase()` fold all of Unicode.
- PasswordResetFlow.PasswordResetDialog.StartResetPassword: the length check counts characters, where JavaScript counts UTF-16 code units.
- Donation amounts are integers. JSON floats, `float()` conversion and Python's acceptance of `True` as the number 1 are not modelled.
- DonationsBackend.NewestFirst: it keeps the table order among rows with the same `created_at`. SQL leaves that order unspecified.
- Register's 201 body carries no `message`, so the sign-in dialog's success message is the empty string. TypeScript would show `undefined`.
- The `'Произошла ошибка'` fallback of the sign-in dialog is not modelled. `authService` only throws `Error` values, so the dialog always shows the error's message.
- `fetch` and `response.json()` are reduced to a `Reply`: ok with a body, non-ok with an optional `error`, or thrown with a message.
- `FileReader` is split into choosing the file (`SelectFile`) and its `onload` (`FileLoaded`); the reading itself is not modelled.
- Console logging (`console.log`, `console.error`) and rendering are not modelled: JSX, icons, the verification panel's text, routing and `navigate`.
  - Toasts are kept as a list of (success, text) pairs.
- The page styles are strings set as written. The interplay between the `background` shorthand and its longhand properties in CSS is not modelled.
- `SubscriptionSettings` re-runs its status check when the `userEmail` prop changes; the model fixes the email at mount. Likewise, the unsubscribe page reacts to a change of `searchParams` by running again; the model mounts once.
- The browser's own form checks are not modelled: `required`, `type="email"`, `minLength={6}`, `maxLength={6}` and `pattern="[0-9]{6}"` on the inputs of src/components/AuthDialog.tsx:102-189 and src/components/PasswordResetDialog.tsx:149-242.
  - AuthDialogFlow.AuthDialog.StartSubmit, AuthDialogFlow.AuthDialog.StartVerify, PasswordResetFlow.PasswordResetDialog.StartRequestReset, PasswordResetFlow.PasswordResetDialog.StartVerifyCode and PasswordResetFlow.PasswordResetDialog.StartResetPassword let every submission through. The browser would block an empty, malformed, too-short or non-numeric typed value before the handler runs.
  - PasswordResetFlow.PasswordResetDialog.StartResetPassword: its too-short toast is reachable in the model for typed input that the browser stops first.
  - AuthDialogFlow.AuthDialog.EditCode, PasswordResetFlow.PasswordResetDialog.EditCode and the other Edit methods accept any string. The model does not capture the six-character cap that `maxLength` puts on a typed code.
- The sign-in dialog keeps the email and password inputs editable while a request runs. The model lets them change. The request carries the values from the start, and verification uses the email on screen when it appears.
- The `open` prop of the two dialogs is modelled as a field that `onOpenChange(false)` clears; the parent's handling is not modelled.
- The duplicated conditional in the catalogue page's render, src/pages/Index.tsx:100-101, is rendering and is not modelled.
- Terms, Privacy, Support, Admin, ProfileDialog and DonationDialog are not part of this model.

## Findings

| source | as written | input that shows it | evidently intended | confidence | as-written member | corrected member |
|---|---|---|---|---|---|---|
| src/components/AuthDialog.tsx:57 | `handleVerify` calls `authService.verifyEmail`, which src/lib/auth.ts:28-136 does not define. The call throws a TypeError before any request, so the catch shows its message, the form stays up and `onSuccess` is never called | any submit of the verification form after a successful registration | send the email kept from registration with the code; on success signal, close, clear the fields and hide verification | high (not executed) | AuthDialogFlow.AuthDialog.SubmitVerifyAsWritten | AuthDialogFlow.AuthDialog.FinishVerify |
