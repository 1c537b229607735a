# Sainik Saathi core, modelled in Dafny

Sainik Saathi is a welfare portal for armed-forces personnel and their
families. Users register and log in, browse welfare schemes and apply for
them, file grievances, raise SOS alerts and verify their Aadhaar identity.
Admins create and edit schemes, review applications, resolve grievances and
acknowledge alerts. This project models the logic at the centre of that
system and proves what it promises:

- **Record store** (`Storage`). The in-memory store `MemStorage` is a class
  with five `map<int, _>` tables and five id counters. Its create, lookup,
  filter and status-update methods change those fields in place. Its queries
  are loops proved against `Rows`, the table's values in ascending id order.
  That order is the order a JavaScript `Map` iterates in, because every table
  is only ever inserted into under the counter's current value.
- **Request handlers** (`Routes`). Each handler is a method (or, where it
  only decides, a function) over the store model. It returns the status code
  and body it sends: token extraction and authentication, registration
  checks, login, role gates, grievance listing, SOS acknowledgement,
  dashboard statistics, and the Aadhaar endpoints' conditional status
  update.
- **Aadhaar service** (`Aadhaar`). This is the adapter between the portal and
  the identity provider. The provider's reply is an input, the verification
  log is an object whose entry list the service appends to. The proofs show
  at most one entry per call that passes the argument check, and exactly one
  when the store accepts the write.
- **Verification wizard** (`AadhaarWizard`). A class holding the wizard's
  state fields: step, Aadhaar number, OTP, transaction id and the in-flight
  request flags. Each user event and each request outcome is a method
  guarded by the controls on screen.
- **Page and admin logic**. These are the pure list and string functions of
  the client:
  - the pending-first ordering of the admin application list
    (`ApplicationReview`);
  - the schemes URL built through `URLSearchParams` (`SchemeManager`,
    `SearchParams`);
  - the add-scheme form (`AdminAddScheme`);
  - dashboard notifications and counts (`Dashboard`);
  - grievance validation and statistics (`GrievancesPage`);
  - the marketplace, schemes and community filters (`Marketplace`,
    `SchemesPage`, `Community`).

`Wrappers`, `Text` and `Seqs` hold shared definitions. `Text` has ASCII case
mapping, `trim` over ECMAScript's whitespace and line terminators,
`includes`, `split`/`join`, decimal rendering and UTF-16
length. `Seqs` has `filter` with its lemmas and a stable insertion sort.
`Schema` holds the record types and status vocabularies of
shared/schema.ts, restricted to the fields the modelled code reads or writes
(see "## Left out").

Where the code and its surroundings disagree, the model follows the code:

- `GET /api/schemes` passes its query filters to `getSchemes(filters)`, but
  `MemStorage.getSchemes` takes no argument. Every request whose `tags` is
  absent or a single string therefore gets exactly the active schemes. A
  repeated or bracketed `tags` parses to an array or object with no `split`,
  and the thrown error is answered with 500 "Failed to get schemes"
  (`Routes.ListSchemes`).
- `getUserByServiceNumber` compares with `===`. A registration without a
  service number (`undefined`) is therefore refused once any user without one
  exists (`Routes.Register`, `Storage.MemStorage.GetUserByServiceNumber`).
- The application and grievance `status` columns have database defaults, so
  the insert schemas make `status` optional, and the store spreads the
  parsed body without filling in a default. The schemes page posts only the
  scheme id, and the grievance form posts only its four fields, so both are
  stored with no status (`None`).
  - Such an application never counts as pending in the dashboard
    statistics (`Routes.ComputeStats`).
  - It sorts among the non-pending rows of the admin review list, whose
    Approve and Reject stay disabled for it
    (`ApplicationReview.StatuslessNeverActionable`).
  - Such a grievance counts as pending on the grievances page, and its badge
    shows no label (`GrievancesPage.StatusText`).
- After a successful initiate call, the wizard moves to the OTP or biometric
  step whatever the response's `success` says. It stores `data.txnId` as
  given (`AadhaarWizard.Wizard.InitiateSucceeded`).
- The store has no `deleteScheme`, `updateScheme`, `updateSosAlert` or
  `updateUserAadhaarStatus`, so with the shipped store:
  - every admin delete answers 400 "Failed to delete scheme"
    (`Routes.DeleteSchemeRoute`);
  - every admin scheme edit answers 400 "Failed to update scheme"
    (`Routes.UpdateSchemeRoute`);
  - every SOS acknowledge answers 400 "Failed to acknowledge SOS alert"
    (`Routes.AcknowledgeSosRoute`);
  - every OTP or biometric check the provider confirms answers 400 with the
    `TypeError`'s message (`Routes.VerifiedTail`).
  For the same reason every verification-log write is rejected and
  swallowed, so the log stays empty.
- `getSchemes` tests `isActive` by truthiness and `POST /api/schemes` stores
  the body unchecked. A scheme created without `isActive` is therefore never
  listed (`Storage.MemStorage.GetSchemes`, `Routes.ListSchemes`).
- In the community sample data, the Pune and Jaipur hubs are located in the
  states "Maharashtra" and "Rajasthan" while the posts name cities.
  Selecting either hub shows no posts, although one post is from Pune and
  one from Jaipur (`Community.StateHubsShowNoSamplePosts`).

## Model

| member | source | states |
|---|---|---|
| Storage.MemStorage.constructor | server/storage.ts:37-97 | a new store has empty user, application, grievance and alert tables with counters at 1; the scheme table holds exactly ids 1, 2, 3, each the seeded scheme under its id and active, and the next scheme id is 4 |
| Storage.MemStorage.SeedData | server/storage.ts:54-97 | the `forEach` inserts seed scheme i under id i+1, advancing the counter once per scheme |
| Storage.MemStorage.GetUser | server/storage.ts:100-102 | a user is returned exactly when the id is a key, and it carries that id |
| Storage.MemStorage.GetUserByEmail | server/storage.ts:104-106 | none exactly when no user has the email; otherwise a stored user with that email, and no earlier-inserted user has it |
| Storage.MemStorage.GetUserByServiceNumber | server/storage.ts:108-110 | the same first-match search by service number, with `undefined` matching users stored without one |
| Storage.MemStorage.CreateUser | server/storage.ts:112-121 | the user gets the counter's value as id (above every existing key), is stored under it, nothing else changes and the counter advances by one |
| Storage.MemStorage.GetSchemes | server/storage.ts:124-126 | the result is the active schemes in insertion order: a scheme is in it exactly when it is stored under its id and its `isActive` is truthy |
| Storage.MemStorage.GetScheme | server/storage.ts:128-130 | a scheme is returned exactly when the id is a key, and it carries that id |
| Storage.MemStorage.CreateScheme | server/storage.ts:132-141 | fresh id from the counter, above every existing key; only that entry is added; the counter advances |
| Storage.MemStorage.GetApplicationsByUser | server/storage.ts:144-146 | exactly the stored applications whose `userId` is the argument, in insertion order |
| Storage.MemStorage.CreateApplication | server/storage.ts:148-160 | fresh id; the new application has no review time, reviewer or comments; only that entry is added |
| Storage.MemStorage.UpdateApplicationStatus | server/storage.ts:162-175 | an absent id returns undefined and changes nothing; otherwise only that entry is rewritten with the status, a review time, and null for a falsy reviewer or comment |
| Storage.MemStorage.GetGrievancesByUser | server/storage.ts:178-180 | exactly the stored grievances filed by the argument, in insertion order |
| Storage.MemStorage.GetAllGrievances | server/storage.ts:182-184 | every stored grievance, in insertion order |
| Storage.MemStorage.CreateGrievance | server/storage.ts:186-198 | fresh id; the new grievance has no resolution time, resolver or resolution; only that entry is added |
| Storage.MemStorage.UpdateGrievanceStatus | server/storage.ts:200-213 | absent id: undefined and no change; otherwise only that entry changes, with a resolution time exactly when the status is "resolved", and null for a falsy resolver or resolution |
| Storage.MemStorage.CreateSosAlert | server/storage.ts:216-227 | fresh id; the new alert has no acknowledgement time or admin; only that entry is added |
| Storage.MemStorage.GetSosAlerts | server/storage.ts:229-231 | every stored alert, in insertion order |
| Storage.RowsById | server/storage.ts:124-125 | `Array.from(map.values())` holds a record exactly when it is stored under its own id |
| Storage.NumberOrNull | server/storage.ts:170 | `x \|\| null` on a number is null exactly for undefined and 0, and the number otherwise |
| Storage.TextOrNull | server/storage.ts:171 | `x \|\| null` on a string is null exactly for undefined and "", and the string otherwise |
| Routes.ToPublic | server/routes.ts:133-135 | the user sent to the client keeps id, email and role; it has no password field |
| Routes.ExtractToken | server/routes.ts:25-32 | the token is the second space-separated piece of the Authorization header when non-empty, otherwise the cookie when truthy, otherwise none; a token is never empty |
| Routes.BearerHeaderToken | server/routes.ts:26-27 | a `Bearer <token>` header yields the token whatever the cookie holds |
| Routes.CookieToken | server/routes.ts:29-32 | without a header the cookie is used |
| Routes.Authenticate | server/routes.ts:25-48 | no token is 401, a token that fails verification is 403, a token whose user no longer exists is 401; a verifying token whose user is stored authenticates as that user with the stored role, not the token's |
| Routes.Register | server/routes.ts:91-139 | a taken email is refused first, then a taken service number, both 400 with no change; a throwing hash (no password in the body) is 400 with its message and no change; otherwise a "soldier" with the hashed password is created and returned without it; unique emails and service numbers stay unique |
| Routes.Login | server/routes.ts:141-178 | 401 "Invalid credentials" when no user has that email or the first one's password is rejected; a throwing comparison is 400 with its message; a 200 body is that user without the password; under unique emails, success exactly when such a user exists |
| Routes.Me | server/routes.ts:185-198 | 404 exactly when the caller's user is gone, otherwise that user without the password |
| Routes.ListSchemes | server/routes.ts:201-218 | every request whose `tags` is absent or a single string gets 200 with exactly the active stored schemes, in insertion order, whatever the other filters say; a repeated or bracketed `tags` (an array or object) gets exactly 500 "Failed to get schemes" |
| Routes.CreateSchemeRoute | server/routes.ts:278-290 | a non-admin gets 403 and the scheme table and counter are unchanged; an admin's scheme is created (201) |
| Routes.UpdateSchemeRoute | server/routes.ts:292-310 | a non-admin gets 403 and no store call; an admin's patch goes to `updateScheme` with the admin as editor; a falsy result is 404, a rejection 400 |
| Routes.DeleteSchemeRoute | server/routes.ts:312-330 | a non-admin gets 403 and no store call; an admin gets 200 "Scheme deleted successfully" exactly when `deleteScheme` resolves truthy, 404 on a falsy result and 400 "Failed to delete scheme" when it throws |
| Routes.CreateApplicationRoute | server/routes.ts:351-369 | the application is filed under the caller with the body's status, which may be missing; a rejected body is 400 and an unknown scheme 404, both with no change |
| Routes.ListGrievances | server/routes.ts:372-382 | admins get every grievance; anyone else gets only their own, in insertion order |
| Routes.CreateGrievanceRoute | server/routes.ts:384-396 | the grievance is filed under the caller (201) with the body's status, which may be missing; a rejected body is 400 with no change |
| Routes.UpdateGrievanceRoute | server/routes.ts:398-423 | a non-admin gets 403 with no change; an unknown id is 404 with no change; otherwise only that grievance changes, with the admin as resolver |
| Routes.CreateSosRoute | server/routes.ts:426-451 | the alert is raised under the caller (201); a rejected body is 400 with no change |
| Routes.ListSosAlerts | server/routes.ts:453-465 | 403 exactly for non-admins; admins get every alert in insertion order |
| Routes.AcknowledgeSosRoute | server/routes.ts:467-495 | a non-admin gets 403 and no store call; otherwise `updateSosAlert` is called with the time and the acting admin's id; a falsy result is 404, a rejection 400 "Failed to acknowledge SOS alert" |
| Routes.ComputeStats | server/routes.ts:502-509 | `activeApplications` equals `pending`; approved plus pending never exceed the applications; `grievances` is the grievance count; pending is 0 exactly when none is pending |
| Routes.DashboardStatsRoute | server/routes.ts:498-514 | the statistics are computed over exactly the caller's own applications and grievances |
| Routes.InitiateRoute | server/routes.ts:517-529 | the service's response is sent as is and is never verified; no `updateUserAadhaarStatus` call is made; the log gains the service's one entry when the store accepts the write |
| Routes.VerifiedTail | server/routes.ts:540-553 | a thrown service error is 400; the caller's Aadhaar status is updated exactly when the response is verified; a throwing update is 400 with its message; otherwise the response is sent as is |
| Routes.VerifyOtpRoute | server/routes.ts:531-555 | `updateUserAadhaarStatus(caller, number, true)` is called exactly when the OTP is present and the provider confirms, and when it throws the answer is 400 with its message; a missing OTP is 400 and writes no log entry; otherwise the log gains the service's entry when the store accepts the write |
| Routes.VerifyBiometricRoute | server/routes.ts:557-581 | the same for biometric data: the conditional status update, the 400 when it throws, the 400 without data, and the log entry |
| Aadhaar.Substring7 | server/services/aadhaar.ts:16 | `substring(7)` is the suffix after the first seven characters, or "" for a shorter string |
| Aadhaar.GenerateTxnId | server/services/aadhaar.ts:15-17 | every transaction id starts with "SAINIK-" |
| Aadhaar.TxnIdFields | server/services/aadhaar.ts:16 | splitting a transaction id at '-' gives "SAINIK", then the clock reading, then the rest |
| Aadhaar.TxnIdDeterminesClock | server/services/aadhaar.ts:16 | ids made at different clock readings differ |
| Aadhaar.CaughtMessage | server/services/aadhaar.ts:69 | the caught error's message is the provider's message when truthy, else the fallback; it is non-empty for a provider reply |
| Aadhaar.InitiateCall | server/services/aadhaar.ts:40-47 | the payload holds the hashed number, the generated id and consent "Y"; the certificate type is "X509" exactly for BIOMETRIC |
| Aadhaar.InitiateResponse | server/services/aadhaar.ts:61-84 | never verified; success exactly when the provider says "Success"; a non-empty error otherwise; always the generated id |
| Aadhaar.AttemptEntry | server/services/aadhaar.ts:19-29 | the log row copies number, type, status and error, uses `txnId \|\| ""`, and leaves address and user agent empty |
| Aadhaar.OutcomeEntry | server/services/aadhaar.ts:61-77 | a success logs the success status with no error; anything else logs FAILED with a non-empty message |
| Aadhaar.VerifyResponse | server/services/aadhaar.ts:111-141 | success and verified agree, with the holder's profile exactly on a provider "Success"; otherwise both false with a non-empty error; the request's id (or "") is echoed |
| Aadhaar.VerificationLog.Write | server/services/aadhaar.ts:21-29 | an accepted write appends exactly the entry; a rejected one leaves the log as it was |
| Aadhaar.AadhaarService.LogVerificationAttempt | server/services/aadhaar.ts:19-33 | one attempt entry is appended when the store accepts it; a failed write is swallowed |
| Aadhaar.AadhaarService.InitiateVerification | server/services/aadhaar.ts:35-85 | the call posted, the response and the single log entry are those above, all built from the same generated id |
| Aadhaar.AadhaarService.VerifyOtp | server/services/aadhaar.ts:87-142 | a missing or empty OTP throws with no provider call and no log entry; otherwise one provider call, one log entry and the verify response |
| Aadhaar.AadhaarService.VerifyBiometric | server/services/aadhaar.ts:144-200 | the same for biometric data, always posting certificate type "X509" |
| Aadhaar.AadhaarService.VerifyAndLog | server/services/aadhaar.ts:111-141 | the shared verify tail: log VERIFIED or FAILED once, then respond |
| AadhaarWizard.DigitsOnly | client/src/components/aadhaar-verification.tsx:198 | the filtered input holds only digits and is no longer than the input |
| AadhaarWizard.DigitsOnlyExact | client/src/components/aadhaar-verification.tsx:198 | a character survives exactly when it is a digit of the input, and the result is a subsequence of the input |
| AadhaarWizard.DigitsOnlyIdempotent | client/src/components/aadhaar-verification.tsx:239 | digit strings pass through unchanged, so the filter is idempotent |
| AadhaarWizard.DigitsOnlyAppend | client/src/components/aadhaar-verification.tsx:198 | filtering a concatenation filters each part |
| AadhaarWizard.DigitsUtf16Length | client/src/components/aadhaar-verification.tsx:118 | a digit string's `length` is its number of characters |
| AadhaarWizard.AcceptedLengths | client/src/components/aadhaar-verification.tsx:117-139 | for the digit-only field values, the guards are exactly "12 digits" and "6 digits" |
| AadhaarWizard.Wizard.constructor | client/src/components/aadhaar-verification.tsx:16-20 | the wizard starts at INITIAL with empty fields, the OTP method chosen and nothing in flight |
| AadhaarWizard.Wizard.Controls | client/src/components/aadhaar-verification.tsx:172-270 | each step shows only its own inputs; a submit button is enabled exactly on its step while its request is not in flight; COMPLETE shows nothing |
| AadhaarWizard.Wizard.CompleteIsTerminal | client/src/components/aadhaar-verification.tsx:172-183 | at COMPLETE no control is offered and no request is awaited |
| AadhaarWizard.Wizard.EditAadhaarNumber | client/src/components/aadhaar-verification.tsx:198 | the field stores the digits of what was typed |
| AadhaarWizard.Wizard.ChooseType | client/src/components/aadhaar-verification.tsx:205-208 | the chosen method is stored |
| AadhaarWizard.Wizard.HandleInitiate | client/src/components/aadhaar-verification.tsx:117-127 | the initiate request is sent exactly when the number has length 12, and carries the number and method |
| AadhaarWizard.Wizard.InitiateSucceeded | client/src/components/aadhaar-verification.tsx:30-41 | the txnId is stored and the step moves to OTP for the OTP method and to BIOMETRIC otherwise, whatever `success` says |
| AadhaarWizard.Wizard.InitiateFailed | client/src/components/aadhaar-verification.tsx:42-48 | only the in-flight flag clears |
| AadhaarWizard.Wizard.EditOtp | client/src/components/aadhaar-verification.tsx:239 | the OTP field stores the digits of what was typed |
| AadhaarWizard.Wizard.HandleVerifyOtp | client/src/components/aadhaar-verification.tsx:129-139 | the verify request is sent exactly when the OTP has length 6, with number, OTP and stored txnId |
| AadhaarWizard.Wizard.VerifyOtpSucceeded | client/src/components/aadhaar-verification.tsx:60-74 | COMPLETE exactly when the response says verified; otherwise the step stays |
| AadhaarWizard.Wizard.VerifyOtpFailed | client/src/components/aadhaar-verification.tsx:75-81 | an error leaves the step unchanged |
| AadhaarWizard.Wizard.CaptureBiometric | client/src/components/aadhaar-verification.tsx:141-170 | the biometric request is sent exactly when a credential was captured |
| AadhaarWizard.Wizard.VerifyBiometricSucceeded | client/src/components/aadhaar-verification.tsx:93-107 | COMPLETE exactly when the response says verified |
| AadhaarWizard.Wizard.VerifyBiometricFailed | client/src/components/aadhaar-verification.tsx:108-114 | an error leaves the step unchanged |
| ApplicationReview.StatusBadgeVariant | client/src/components/admin/application-review.tsx:47-56 | approved maps to "default", rejected to "destructive", every other status, a missing one included, to "secondary" |
| ApplicationReview.PendingFirstPartition | client/src/components/admin/application-review.tsx:96-102 | the sorted copy is the pending applications, then the others, each in fetched order |
| ApplicationReview.InsertIntoPartition | client/src/components/admin/application-review.tsx:97-102 | a stable insertion step puts a new application at the end of its group |
| ApplicationReview.PendingFirstPermutation | client/src/components/admin/application-review.tsx:96-97 | the sorted copy is a permutation of the fetched list |
| ApplicationReview.PendingPrecede | client/src/components/admin/application-review.tsx:97-102 | every pending application comes before every non-pending one |
| ApplicationReview.PendingFirstKeepsOrder | client/src/components/admin/application-review.tsx:97-102 | within each group the fetched order is kept |
| ApplicationReview.ActionableRowsFirst | client/src/components/admin/application-review.tsx:139 | the rows whose Approve and Reject are enabled form a prefix of the table |
| ApplicationReview.StatuslessNeverActionable | client/src/components/admin/application-review.tsx:97-102 | an application stored without a status sorts among the non-pending rows, and its Approve and Reject are never enabled (line 139) |
| SchemeManager.TabStatus | client/src/components/admin/scheme-manager.tsx:67-81 | the tab decides the status: active, upcoming and ended map to ACTIVE, UPCOMING and ENDED; "all" to none |
| SchemeManager.EffectiveFilters | client/src/components/admin/scheme-manager.tsx:67-81 | only the status changes, and it is the tab's, whatever `filters.status` was |
| SchemeManager.TabDecidesStatus | client/src/components/admin/scheme-manager.tsx:67-81 | two filter sets on the same tab get the same status |
| SchemeManager.Positions | client/src/components/admin/scheme-manager.tsx:86-92 | the positions of set parameters are increasing and exactly the set ones |
| SchemeManager.ChosenPositions | client/src/components/admin/scheme-manager.tsx:86-92 | successive `set` calls on fresh names list exactly the set parameters, in call order |
| SchemeManager.ParamsInOrder | client/src/components/admin/scheme-manager.tsx:86-92 | parameters appear in the order category, status, search, minAmount, maxAmount, isActive, tags |
| SchemeManager.UrlOf | client/src/components/admin/scheme-manager.tsx:94-95 | the URL is "/api/schemes" exactly when no parameter is set, otherwise "/api/schemes?" and the query string |
| SchemeManager.BuildParams | client/src/components/admin/scheme-manager.tsx:85-92 | the seven conditional `params.set` calls leave exactly the parameter list above |
| SchemeManager.SchemesUrl | client/src/components/admin/scheme-manager.tsx:83-96 | the URL is built from the effective filters' parameters |
| SchemeManager.ParamNames | client/src/components/admin/scheme-manager.tsx:86-92 | each parameter name is present exactly when its field is set, with its value |
| SchemeManager.ParamPresence | client/src/components/admin/scheme-manager.tsx:86-92 | an empty category or search is omitted; minAmount or maxAmount 0 and isActive false are sent; tags are sent exactly when non-empty, joined with "," |
| SchemeManager.StatusSentUnlessAll | client/src/components/admin/scheme-manager.tsx:67-92 | the status parameter is sent exactly on the non-"all" tabs |
| SchemeManager.AllTabUrl | client/src/components/admin/scheme-manager.tsx:83-96 | with no other filter, the "all" tab's URL is "/api/schemes" |
| SchemeManager.ActiveTabParams | client/src/components/admin/scheme-manager.tsx:67-92 | with no other filter, the active tab sends exactly one parameter, status=ACTIVE |
| SchemeManager.ActiveTabUrl | client/src/components/admin/scheme-manager.tsx:83-96 | with no other filter, the active tab's URL is "/api/schemes?status=ACTIVE" |
| SearchParams.FormEncodeUnreserved | client/src/components/admin/scheme-manager.tsx:94 | unreserved characters serialize as themselves |
| SearchParams.FormEncodeHasNoDelimiters | client/src/components/admin/scheme-manager.tsx:94 | an encoded name or value never holds '&', '=' or a space |
| SearchParams.EncodePairSplit | client/src/components/admin/scheme-manager.tsx:94 | an encoded pair splits at its one '=' into the encoded name and value |
| SearchParams.SerializeEmpty | client/src/components/admin/scheme-manager.tsx:94-95 | the query string is empty exactly when there are no parameters |
| SearchParams.SerializeSplit | client/src/components/admin/scheme-manager.tsx:94 | splitting a query string at '&' gives back the encoded pairs, in order |
| SearchParams.SetParamSpec | client/src/components/admin/scheme-manager.tsx:86-92 | after `set`, exactly one pair has the name, with the new value, and all other pairs are kept in order |
| SearchParams.URLSearchParams.Set | client/src/components/admin/scheme-manager.tsx:86-92 | the pair list becomes the `set` of the old list |
| AdminAddScheme.InitialForm | client/src/pages/admin-add-scheme.tsx:10-31 | every text field starts as "", isActive as true and status as "ACTIVE", and there are no other fields |
| AdminAddScheme.HandleChange | client/src/pages/admin-add-scheme.tsx:49-62 | only the named field changes: a checkbox stores `checked`, any other input its raw value |
| AdminAddScheme.HandleChangeOverwrites | client/src/pages/admin-add-scheme.tsx:49-62 | a second change to a field overrides the first, and repeating a change is idempotent |
| AdminAddScheme.ParseList | client/src/pages/admin-add-scheme.tsx:72-73 | every parsed entry is non-empty, trimmed at both ends and free of commas |
| AdminAddScheme.ParseListKeepsOrder | client/src/pages/admin-add-scheme.tsx:72-73 | the entries are a subsequence of the trimmed comma-separated pieces, in input order; a string is an entry iff it is a non-empty trimmed piece; the entry count is the piece count less the empty pieces |
| AdminAddScheme.ParseListOfBlank | client/src/pages/admin-add-scheme.tsx:72-73 | input made only of commas and whitespace, including "", parses to [] |
| AdminAddScheme.ParseListOfJoin | client/src/pages/admin-add-scheme.tsx:72-73 | joining trimmed comma-free entries with "," and parsing gives them back |
| AdminAddScheme.Submit | client/src/pages/admin-add-scheme.tsx:64-78 | the submission is built exactly when documents and tags hold text; it carries the form, `Boolean(isActive)` and the parsed lists |
| AdminAddScheme.SubmitInitial | client/src/pages/admin-add-scheme.tsx:64-78 | the untouched form submits with isActive true and empty document and tag lists |
| AdminAddScheme.SubmitAfterTyping | client/src/pages/admin-add-scheme.tsx:49-78 | typed documents and tags are submitted as their parsed lists |
| Dashboard.PendingGrievances | client/src/pages/dashboard.tsx:71 | the count is positive exactly when the list is there and some grievance is not resolved |
| Dashboard.UnacknowledgedAlerts | client/src/pages/dashboard.tsx:72 | the count is positive exactly when some alert lacks `acknowledgedAt` |
| Dashboard.PendingApplications | client/src/pages/dashboard.tsx:349 | the count is positive exactly when some application is pending |
| Dashboard.GetNotifications | client/src/pages/dashboard.tsx:57-82 | soldiers and families get their two fixed notifications; admins get at most two, the warning exactly when some grievance is unresolved and the alert exactly when some alert is unacknowledged, carrying the counts, warning first; other roles get none |
| Dashboard.RecentApplications | client/src/pages/dashboard.tsx:524 | the recent list is the first min(5, n) applications, and the empty state exactly when there are none |
| Dashboard.RoleLabel | client/src/pages/dashboard.tsx:466 | the role badge keeps the role's length |
| Dashboard.RoleLabels | client/src/pages/dashboard.tsx:466 | the three roles read "Soldier", "Family" and "Admin" |
| GrievancesPage.MinLengthOne | client/src/pages/grievances.tsx:20-21 | `min(1)` holds exactly for non-empty strings |
| GrievancesPage.Validate | client/src/pages/grievances.tsx:19-24 | no errors exactly when category, subject and priority are non-empty and the description has length at least 10; each error appears exactly when its rule fails |
| GrievancesPage.EmptyFormRejected | client/src/pages/grievances.tsx:19-24 | the empty form gets all four messages, in field order |
| GrievancesPage.DescriptionCountsCodeUnits | client/src/pages/grievances.tsx:22 | length counts UTF-16 code units, so five emoji pass the 10-character rule |
| GrievancesPage.StatusColor | client/src/pages/grievances.tsx:73-80 | an unknown or missing status gets exactly the gray class |
| GrievancesPage.StatusText | client/src/pages/grievances.tsx:82-89 | the three statuses get labels; any other status is shown unchanged, and a missing one renders no label |
| GrievancesPage.KnownStatusesDistinct | client/src/pages/grievances.tsx:73-89 | the three statuses get three different labels and colours |
| GrievancesPage.Stats | client/src/pages/grievances.tsx:226-241 | pending plus resolved equals total, total is the list length, and pending is positive exactly when some grievance is unresolved |
| GrievancesPage.RecentGrievances | client/src/pages/grievances.tsx:262-264 | the recent list is the first min(3, n) grievances, and the empty state exactly when there are none |
| Marketplace.FilteredItemsSpec | client/src/pages/marketplace.tsx:79-86 | an item is kept exactly when it matches all three filters; the result is a subsequence of the items |
| Marketplace.NoFiltersKeepAll | client/src/pages/marketplace.tsx:80-84 | with all filters empty every item is kept |
| Marketplace.CaseInsensitive | client/src/pages/marketplace.tsx:80-85 | search and location texts that lower-case alike filter alike |
| Marketplace.AllCategoryAsWritten | client/src/pages/marketplace.tsx:82 | as written, the "all" category keeps only items whose category is literally "all" |
| Marketplace.AllCategoryHidesSamples | client/src/pages/marketplace.tsx:28-86 | so "All Categories" shows none of the sample listings |
| Marketplace.AllCategoryIntended | client/src/pages/marketplace.tsx:82 | with "all" read as no category filter, it filters like the empty category, and any other category as before |
| Marketplace.AllCategoryShowsSamples | client/src/pages/marketplace.tsx:28-86 | then "All Categories" shows every sample listing |
| Marketplace.Counts | client/src/pages/marketplace.tsx:177-179 | the Available count plus the Needed count is at most the All count, which is the filtered length |
| SchemesPage.FilteredSchemes | client/src/pages/schemes.tsx:46-50 | an undefined list gives []; otherwise a subsequence holding exactly the schemes that match a non-empty category exactly and contain a non-empty eligibility text case-insensitively |
| SchemesPage.NoFiltersKeepAll | client/src/pages/schemes.tsx:46-50 | with both filters empty all schemes are kept, in order |
| SchemesPage.CategoryColor | client/src/pages/schemes.tsx:52-60 | an unknown category gets exactly the gray class |
| SchemesPage.KnownCategoriesDistinct | client/src/pages/schemes.tsx:52-60 | the four known categories get four different colours |
| Community.FindHub | client/src/pages/community.tsx:129 | `find` yields the first hub with the id, or none exactly when no hub has it |
| Community.AllHubsKeepAll | client/src/pages/community.tsx:128-130 | "all" keeps every post |
| Community.UnknownHubKeepsAll | client/src/pages/community.tsx:128-130 | an id no hub has also keeps every post, since the location to look for falls back to "" |
| Community.KnownHubFilter | client/src/pages/community.tsx:128-130 | otherwise a post is kept exactly when its location contains the hub's, ignoring case, and the kept posts keep their order |
| Community.StateHubsShowNoSamplePosts | client/src/pages/community.tsx:29-130 | the Pune and Jaipur hubs, located in "Maharashtra" and "Rajasthan", show none of the sample posts |
| Community.ReplaceFirst | client/src/pages/community.tsx:287 | `replace('-', ' ')` changes exactly the first '-' and keeps the length |
| Community.CapitalizeWordsSpec | client/src/pages/community.tsx:287-288 | split, capitalise each word and join upper-cases exactly the characters at the start or after a space |
| Community.CategoryLabelSpec | client/src/pages/community.tsx:286-288 | the label is the first-dash-replaced category with each word start upper-cased |
| Community.CategoryLabelOfWord | client/src/pages/community.tsx:286-288 | a one-word category reads as the word capitalised |
| Community.CategoryLabelOfDashed | client/src/pages/community.tsx:286-288 | "first-rest" reads as both parts capitalised around a space; a later dash stays ("a-b-c" reads "A B-c") |
| Text.Split | client/src/pages/admin-add-scheme.tsx:72 | `split` gives at least one piece and no piece holds the separator |
| Text.JoinSplit | client/src/pages/community.tsx:287-288 | joining the pieces of a split gives back the string |
| Text.Trim | client/src/pages/admin-add-scheme.tsx:72 | the result is a slice of the input with only whitespace before and after it and none at its own ends, and it is empty exactly for blank input |
| Text.TrimPadded | client/src/pages/admin-add-scheme.tsx:72 | whitespace around a core without whitespace at its ends trims to exactly that core |
| Text.ContainsIff | client/src/pages/marketplace.tsx:80-81 | `includes` holds exactly when the needle occurs at some offset |
| Text.Utf16Length | client/src/pages/grievances.tsx:22 | `length` counts at least one unit per character |

## Left out

- Token signing and verification, bcrypt hashing and comparison, and SHA-256 are inputs of the operations that use them (`verify`, `hashedPassword`, `compare`, `sha256Hex`). A bcrypt hash or comparison that throws is a `Threw` input.
- Aadhaar.AadhaarService.InitiateVerification, VerifyOtp, VerifyBiometric: the Aadhaar number is always a string here. A body without `aadhaarNumber` makes `createHash(...).update` throw inside the `try`. The source then logs FAILED with that error's message and answers failure without calling the provider. The model always posts to the provider once the argument check passes, so it does not cover this case.
- The provider's HTTP endpoints, axios, Socket.IO emits and rooms, cookie setting and clearing, and Express wiring are not modelled. The provider's reply (`ProviderReply`) and the clock are inputs.
- The rate limiter in server/middleware/rate-limit.ts is only configuration of a library, so it is not part of this model.
- `Date.now()`, `new Date()` and `Math.random().toString(36)` are inputs. The uniqueness of transaction ids is probabilistic, and only "different clock readings give different ids" is proved.
- `Number`, `parseInt` and `toLocaleString` are not modelled. Amounts are integers, and numbers are rendered in decimal (`IntToString`).
- AdminAddScheme.Submit: the conversion of `startDate` and `endDate` is not modelled (admin-add-scheme.tsx:74-75). An empty field becomes `undefined` and any other value an ISO string, which may throw for an invalid date. The submission carries the raw form fields for them.
- Case mapping covers ASCII letters only, not full Unicode; `trim` uses the full ECMAScript whitespace and line-terminator set.
- The WebAuthn capture in the wizard is an input (`captured`); react-query caching, toasts, rendering and routing are not modelled.
- Store methods that server/storage.ts does not define (`updateScheme`, `deleteScheme`, `updateSosAlert`, `updateUserAadhaarStatus`) are returned as `StoreCall` records, and their results are inputs (`StoreReply`). No behaviour is invented for them.
- `createAadhaarVerificationLog` is missing from server/storage.ts too. It is modelled by `VerificationLog.Write`, with whether the write succeeded as an input.
- The GET routes for active, upcoming, category-filtered and searched schemes, scheme stats, the verification-log listing and logout call store methods that do not exist or only clear a cookie, so they are not modelled.
- `GET /api/applications` joins each application with its scheme through `Promise.all`. This join is not modelled.
- The zod `parse` of request bodies is an input: `None` stands for a body the schema rejects.
- Routes.Register: the response does not model the token cookie set alongside it. Fields of the body other than name, email, password and service number are not modelled, and neither is a body whose name or email is not a string.
- Routes.CreateSchemeRoute, Schema.NewScheme: `POST /api/schemes` (server/routes.ts:285) stores the request body unchecked, with every field it carries (status, dates, tags, documents and the other columns of shared/schema.ts). The model keeps the eight fields the portal reads: title, description, category, amount, eligibility, deadline, processing time and `isActive`. `isActive` is kept as the raw JSON value (`JsValue`) and is tested for truthiness as `getSchemes` does.
- Storage.MemStorage.constructor, SeedData and the create and update methods: their contracts speak about `old` state, so they state the whole new state rather than a property checked separately.
- Dashboard.RoleLabel: `charAt(0).toUpperCase()` is ASCII-only, like the rest of the case mapping.
- Concurrency is not modelled: concurrent verifications with the same transaction id, and read-then-write races on the user record.
- server/seed.ts (database I/O), the live-server scripts and the other pages and components are not part of this model.

## Findings

| source | as written | input that shows it | evidently intended | confidence | as-written member | corrected member |
|---|---|---|---|---|---|---|
| client/src/pages/marketplace.tsx:82 | `!categoryFilter \|\| item.category === categoryFilter`, while the "All Categories" option has value "all" (line 151) | choosing "All Categories" with no search or location: the sample listings are "books", "equipment" and "housing", so none is shown | "all" means no category filter, as the empty filter does | high; not executed | Marketplace.AllCategoryHidesSamples | Marketplace.AllCategoryShowsSamples |
