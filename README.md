# Immigration portal front end, modelled in Dafny

This project models the client-side logic of a Next.js front end for an immigration
platform. Applicants take an eligibility assessment, sign in, fill in their profile
(contact details, education, employment, family members), upload documents, follow their
visa applications and manage their account settings. The UI only displays things. What
is modelled is the behaviour behind it:

- what each handler stores in `localStorage`;
- which routes it navigates to;
- which toasts and confirm dialogs it shows;
- which requests it sends to the remote API.

The browser is one class, `Platform.Browser`. Its `storage` field is a string-to-string
map standing in for `localStorage`. Its `events` field is an append-only log of what the
user can observe: router pushes, hard navigations, delayed pushes, toasts, confirms, and
API calls. Each stateful React component or context is a class. Its `useState` values are
fields, and its handlers are methods that say exactly how the state and the browser
change. Server replies, the clock and the user's answers to `confirm` are method
parameters. Where a handler awaits and its in-flight state is observable, it is split at
the `await` into a `Begin…` and a `Finish…` method. This applies to the assessment
submit, the document upload and the logout. Pure helpers (filters, labels, colours,
counters, form defaults) are functions, with lemmas for the properties the pages rely on.
A form's `required` inputs are modelled too. While one is empty, the browser does not fire
the education, employment and family forms' `onSubmit`. Each of these forms has a `Blocked`
predicate, and its submit method does nothing while that predicate holds. The contact form's
`Blocked` states when react-hook-form withholds its callback, and `OnSubmit` is that callback
once it runs. The contact form's values,
which react-hook-form passes to `onSubmit` and which `onSubmit` edits in place before
calling `onSave`, are the class `ContactInfoForm.FormData`.

Modules follow the source files:

- `Platform`, `Wrappers`, `Seqs` and `Text` are shared groundwork.
- `HttpClient` is `lib/axios.ts`.
- `Auth` is `contexts/auth-context.tsx`.
- `Socket` is `contexts/socket-context.tsx`.
- The page modules are `Assessment`, `AssessmentResults`, `AssessmentComplete`,
  `AuthCallback`, `Applications`, `Dashboard`, `Settings`, `Documents` and `Family`.
- The form modules are `EducationForm`, `EmploymentForm` and `ContactInfoForm`.
- `DashboardLayout` is the shell page.

Where the model reads the code differently from the product description:

- The assessment results page, given no `sessionId`, navigates away and never clears its
  loading flag.
- The layout's logout always ends at `/login`, because the session store's `logout`
  swallows every failure.

## Model

| member | source | states |
|---|---|---|
| HttpClient.Client.OnRequest | lib/axios.ts:16-26 | The header becomes `Bearer <token>` exactly when a non-empty access token is stored. Otherwise the headers are untouched, and `_retry` is never changed. |
| HttpClient.Client.OnResponseError | lib/axios.ts:33-95 | The first 401 sets `_retry`. With a stored refresh token, a successful refresh overwrites both tokens, updates the header and re-sends. A failed refresh removes all three session keys, hard-navigates to `/login` and rejects with the refresh error. Every other case makes no refresh call, leaves storage alone, shows the classified toast and rejects the original error. |
| HttpClient.ErrorNotice | lib/axios.ts:80-95 | There is no toast exactly for status 400. Any other status shows the server message or "An error occurred". No response shows the network message. No request shows the unexpected-error message. |
| HttpClient.NoticeEvents | lib/axios.ts:80-95 | The generic path adds at most one toast, and none exactly when the classification is silent. |
| HttpClient.RetryAtMostOnce | lib/axios.ts:38-65 | After a renewed 401 the re-sent request carries the new token. A second 401 on it makes no second refresh call and keeps the renewed session. |
| Auth.RoleHome | contexts/auth-context.tsx:89-96 | `admin` goes to `/admin/dashboard` and `case_manager` to `/case-manager/dashboard`, each if and only if. Every other role goes to `/dashboard`. |
| Auth.AuthProvider.constructor | contexts/auth-context.tsx:41-42 | The provider starts with no user and the session check pending. |
| Auth.AuthProvider.CheckAuth | contexts/auth-context.tsx:50-72 | With no access token there is no call and the user, storage and log are unchanged. Otherwise `/auth/me` is called. A failure removes the three keys, and a `success` reply with data sets the user. Loading is false on every path. |
| Auth.AuthProvider.Login | contexts/auth-context.tsx:74-103 | Success stores both tokens and the user's JSON, sets the user, shows a toast and goes to the role's home. A refusal stores nothing and does not navigate. A failure stores nothing, shows the server message or "Login failed", and rethrows. |
| Auth.AuthProvider.Register | contexts/auth-context.tsx:105-128 | The same as login, except that success always lands on `/dashboard`. |
| Auth.AuthProvider.Establish | contexts/auth-context.tsx:78-97 | The success path stores both tokens and the serialised user, sets the user, then shows the greeting and navigates home, in that order. Nothing else in storage changes. |
| Auth.AuthProvider.Logout | contexts/auth-context.tsx:130-148 | Whatever the server answers, the three keys are removed, the user becomes null, and the page goes to `/login` with a toast. |
| Auth.AuthProvider.BeginLogout | contexts/auth-context.tsx:130-133 | The logout call is made and storage is untouched. |
| Auth.AuthProvider.FinishLogout | contexts/auth-context.tsx:136-147 | The `finally` block clears the three keys, nulls the user, and navigates to `/login` with a toast. |
| Auth.AuthProvider.UpdateUser | contexts/auth-context.tsx:150-153 | The user and the `user` key are replaced. The tokens and everything else stay. |
| Socket.OnlineContents | contexts/socket-context.tsx:55-57 | After `user:online` the list has no duplicates, contains the id, and holds exactly the old ids plus the new one. |
| Socket.OnlineOnDuplicateFree | contexts/socket-context.tsx:55-57 | On a duplicate-free list, an id already present changes nothing, and a new id is appended at the end. |
| Socket.OnlineIdempotent | contexts/socket-context.tsx:55-57 | Announcing the same user twice is the same as announcing it once. |
| Socket.OfflineContents | contexts/socket-context.tsx:59-61 | `user:offline` removes every occurrence of the id and keeps all other ids, in their original order. |
| Socket.OfflineUndoesOnline | contexts/socket-context.tsx:55-61 | A new user who comes online and then goes offline leaves the list as it was. |
| Socket.DocumentIcon | contexts/socket-context.tsx:96-101 | The icon is ✅ if and only if the status is `approved`, else ❌. |
| Socket.PaymentIcon | contexts/socket-context.tsx:104-109 | The icon is 💳 if and only if the status is `completed`, else ⏳. |
| Socket.BroadcastIcon | contexts/socket-context.tsx:72-77 | The icon is ❌ if and only if the broadcast type is `error`, else 📢. |
| Socket.Connection.constructor | contexts/socket-context.tsx:31-36 | A new socket carries the given token and is not disconnected. |
| Socket.SocketProvider.constructor | contexts/socket-context.tsx:19-21 | The provider starts with no socket, no cleanup, not connected, and nobody online. |
| Socket.SocketProvider.OnUserChange | contexts/socket-context.tsx:24-133 | The previous connection is closed. A new connection (with the stored token) is created exactly when a user is set and a non-empty access token is stored. With no user, the socket is disconnected and dropped, and `connected` becomes false. |
| Socket.SocketProvider.OnUserOnline | contexts/socket-context.tsx:55-57 | The presence list becomes `Online(old, id)` and stays duplicate-free. |
| Socket.SocketProvider.OnUserOffline | contexts/socket-context.tsx:59-61 | The presence list becomes `Offline(old, id)` and stays duplicate-free. |
| Socket.SocketProvider.OnConnect | contexts/socket-context.tsx:40-43 | `connected` becomes true and nothing else changes. |
| Socket.SocketProvider.OnDisconnect | contexts/socket-context.tsx:45-48 | `connected` becomes false and nothing else changes. |
| Socket.SocketProvider.OnNotification | contexts/socket-context.tsx:64-69 | Exactly one toast is added, with the bell icon. |
| Socket.SocketProvider.OnBroadcast | contexts/socket-context.tsx:72-77 | Exactly one toast is added, with the broadcast's icon. |
| Socket.SocketProvider.OnForceLogout | contexts/socket-context.tsx:80-86 | Both tokens are removed and the `user` key is kept. An error toast is shown, then a hard navigation to `/login`. |
| Socket.SocketProvider.OnApplicationStatus | contexts/socket-context.tsx:89-93 | One toast is added, naming the new status. |
| Socket.SocketProvider.OnDocumentStatus | contexts/socket-context.tsx:96-101 | One toast is added, with `DocumentIcon`. |
| Socket.SocketProvider.OnPaymentStatus | contexts/socket-context.tsx:104-109 | One toast is added, with `PaymentIcon`. |
| Assessment.InitResponses | app/assessment/page.tsx:70-78 | There is one response per question, in order. The id, text and weight are copied from the question, and the answer is `false`. |
| Assessment.WithAnswer | app/assessment/page.tsx:95-101 | Every response for the id gets the answer. All other responses, all other fields and the length stay unchanged. |
| Assessment.WithAnswerMatches | app/assessment/page.tsx:95-101 | Answering keeps the responses in step with the questions. |
| Assessment.WithAnswerLastWins | app/assessment/page.tsx:95-101 | Answering the same question twice keeps only the second answer. |
| Assessment.WithAnswerCommutes | app/assessment/page.tsx:95-101 | Answers to two different questions can be given in either order. |
| Assessment.ProgressBounds | app/assessment/page.tsx:142-144 | With a valid cursor the progress lies in (0, 100], and it equals 100 only at the last question. |
| Assessment.ProgressIncreases | app/assessment/page.tsx:142-144 | Each step forward strictly increases the progress. |
| Assessment.FirstIndex | app/assessment/page.tsx:372 | The result is the first position holding the id, or -1 if and only if no position does. |
| Assessment.ReachedBounds | app/assessment/page.tsx:369-377 | The answered count of a category is at most its total, so its bar stays within 0 to 100. |
| Assessment.EmptyCategory | app/assessment/page.tsx:369-377 | A category without questions has nothing answered and an empty bar. |
| Assessment.ReachedAtLast | app/assessment/page.tsx:369-377 | At the last question every category is complete. |
| Assessment.SessionIdInjective | app/assessment/page.tsx:120 | Submissions made at different instants carry different `session_` ids. |
| Assessment.CategoryIcon | app/assessment/page.tsx:146-157 | Any category outside the seven known ones gets the memo icon, and only those do. |
| Assessment.AssessmentPage.constructor | app/assessment/page.tsx:45-55 | The wizard opens on step 0 with the query's countries (empty when absent), no questions, the first question selected and loading raised. |
| Assessment.AssessmentPage.HandleCountrySelection | app/assessment/page.tsx:87-93 | The step becomes 1 only when both country codes are non-empty, and nothing else changes. |
| Assessment.AssessmentPage.FetchQuestions | app/assessment/page.tsx:57-85 | The questions are requested only on step 1 with both countries chosen. A reply stores the questions with fresh responses. A failure shows a toast and keeps the state. Loading ends either way. |
| Assessment.AssessmentPage.SelectFrom | app/assessment/page.tsx:204 | The "Current Country" picker sets the origin and nothing else. |
| Assessment.AssessmentPage.SelectTo | app/assessment/page.tsx:223 | The "Destination Country" picker sets the destination and nothing else. |
| Assessment.AssessmentPage.HandleAnswerChange | app/assessment/page.tsx:95-101 | The responses become `WithAnswer(old, id, answer)`. |
| Assessment.AssessmentPage.HandleNext | app/assessment/page.tsx:103-123 | Before the last question the cursor advances. At the last one the cursor stays, `submitting` is raised, and the body `{sessionId, fromCountry, toCountry, responses}` is posted with `sessionId = session_<now>`. |
| Assessment.AssessmentPage.FinishSubmit | app/assessment/page.tsx:124-139 | A reply with data shows the success toast and navigates to the results of the returned session id. A reply without data shows the success toast and then the failure toast. A rejected call shows only the failure toast. `submitting` is lowered on every path and the cursor is kept. |
| Assessment.AssessmentPage.HandlePrevious | app/assessment/page.tsx:111-115 | The cursor decrements above 0 and does nothing at 0. |
| Assessment.Walk | app/assessment/page.tsx:103-123 | Pressing Next repeatedly from the first question keeps the cursor on a question until the last one. The next press posts the submission, which is the only new event. It carries the unchanged responses with both countries, and questions, responses, countries and storage are left as they were. |
| AssessmentResults.StatusColor | app/assessment/results/page.tsx:61-69 | Each of the four known statuses has its colour. Gray is used if and only if the status is unknown. |
| AssessmentResults.StatusColorsDistinct | app/assessment/results/page.tsx:61-69 | The four known statuses get four different colours. |
| AssessmentResults.Icon | app/assessment/results/page.tsx:71-75 | A check if and only if `eligible`, a yellow alert if and only if `potentially_eligible`, and a red alert otherwise. |
| AssessmentResults.StatusMessage | app/assessment/results/page.tsx:77-85 | Each known status has its message. The referral text is used if and only if the status is unknown. |
| AssessmentResults.Heading | app/assessment/results/page.tsx:142 | Every underscore becomes a space and every other character is kept. |
| AssessmentResults.Actions | app/assessment/results/page.tsx:259-286 | The application button appears if and only if `eligible`. The consultation button appears if and only if `potentially_eligible` or `needs_review`. Download and Share always close the row. |
| AssessmentResults.Action.Caption | app/assessment/results/page.tsx:259-286 | Each of the four buttons has its own caption, and each caption belongs to exactly one button. |
| AssessmentResults.Action.Link | app/assessment/results/page.tsx:259-276 | Only the application and consultation buttons are links, to `/register` and `/contact`. |
| AssessmentResults.ActionsExclusive | app/assessment/results/page.tsx:259-276 | No status gets both offers, and `not_eligible` gets neither. |
| AssessmentResults.ResultsPage.OnMount | app/assessment/results/page.tsx:38-58 | Without a session id: navigate to `/assessment`, with no fetch. Otherwise fetch. A failure shows a toast and navigates to `/assessment`. Loading ends after either outcome. |
| AssessmentResults.ResultsPage.constructor | app/assessment/results/page.tsx:35-36 | The page starts with no result and loading raised. |
| AssessmentComplete.CatchMessage | app/assessment/complete/page.tsx:63 | The server's message if present, else the non-empty fallback. |
| AssessmentComplete.CatchEvents | app/assessment/complete/page.tsx:61-72 | The catch path shows one non-empty error toast, the server message when there is one, and then schedules a push to `/` after 2000 ms. |
| AssessmentComplete.CompletePage.constructor | app/assessment/complete/page.tsx:11 | The page starts with `processing` raised. |
| AssessmentComplete.CompletePage.CompleteAssessment | app/assessment/complete/page.tsx:17-73 | Signed out: a toast and `/login`, with no call, and pending data untouched. No pending data: `/`, with no call. An existing assessment: pending data removed, `/`, no submit. Otherwise the parsed data is posted unchanged. Success removes it and goes to `/`. A refusal keeps it and stays. A thrown error keeps it and schedules `/` after 2 s. `processing` is false on every path. |
| AssessmentComplete.CompletePage.Fail | app/assessment/complete/page.tsx:61-72 | The catch path adds the error toast and the delayed push, and leaves storage alone. |
| AuthCallback.HandleCallback | app/auth/callback/page.tsx:11-27 | With both tokens present, exactly those values are stored and the app reloads at `/`. Otherwise nothing is stored and the page goes to `/login`. The `user` key is never written. |
| Applications.FilteredContents | app/applications/page.tsx:89-95 | The filtered list is an order-preserving sub-list. It holds exactly the applications whose status matches (or the filter is `all`) and whose type or destination contains the query, ignoring case. |
| Applications.FilteredIdempotent | app/applications/page.tsx:89-95 | Filtering the filtered list again gives the same list. |
| Applications.FilteredShowsAll | app/applications/page.tsx:90-93 | `all` with an empty search lists every application. |
| Applications.StatusNarrows | app/applications/page.tsx:90 | Choosing one status never lists more than `all`. |
| Applications.ListingOf | app/applications/page.tsx:174-185 | Cards are shown if and only if something matches. The empty state says "No Applications Yet" and offers creation if and only if there are no applications at all. |
| Applications.NoApplicationsInvitesCreate | app/applications/page.tsx:174-185 | An empty account always sees the invitation to create an application. |
| Applications.StatusLabel | app/applications/page.tsx:212-273 | Only the first underscore of the status becomes a space. Every later underscore and every other character is kept, and the length is unchanged. |
| Applications.StatusIcon | app/applications/page.tsx:59-72 | The plain document icon is used if and only if the status is not one of the four known ones. Approved and submitted share the check glyph in different tints. |
| Applications.StatusColor | app/applications/page.tsx:74-87 | Anything but the four known statuses is styled as a draft. |
| Applications.DownloadPastDraft | app/applications/page.tsx:247 | An application whose unknown status is styled like a draft still offers the download, which only drafts lack. |
| Applications.HistoryDot | app/applications/page.tsx:265-269 | The dot is blue if and only if the entry is not approved, rejected or under review. |
| Applications.RecentActivity | app/applications/page.tsx:263 | The last min(3, n) history entries, newest first. |
| Applications.RecentActivityShort | app/applications/page.tsx:263 | A history of at most three entries is shown whole, reversed. |
| Dashboard.Total | app/dashboard/page.tsx:132 | The length of the list, or 0 when the data is absent. |
| Dashboard.Count | app/dashboard/page.tsx:146-178 | A counter never exceeds the total. |
| Dashboard.InProgress | app/dashboard/page.tsx:146-153 | The "In Progress" card never exceeds the total. It is 0 if and only if no application is a draft, submitted or under review, and equals the total if and only if every one is. |
| Dashboard.Approved | app/dashboard/page.tsx:162-164 | The "Approved" card never exceeds the total. It is 0 if and only if none is approved, and equals the total if and only if all are. |
| Dashboard.Paid | app/dashboard/page.tsx:174-178 | The "Paid" card never exceeds the total. It is 0 if and only if no payment succeeded, and equals the total if and only if every payment did. |
| Dashboard.StatusIcon | app/dashboard/page.tsx:63-78 | The check is shown if and only if approved, the cross if and only if rejected, the alert if and only if submitted. The gray clock is used for drafts and unknown statuses. |
| Dashboard.StatusColor | app/dashboard/page.tsx:80-95 | The gray badge is used if and only if the status is a draft or unknown. Approved is green and rejected is red. |
| Dashboard.InProgressAndApprovedWithinTotal | app/dashboard/page.tsx:146-162 | In progress plus approved is at most the total, because no status is in both sets. |
| Dashboard.CountsExact | app/dashboard/page.tsx:146-178 | A counter is 0 if and only if no application is of its kind, and equals the total if and only if every application is. |
| Dashboard.PaymentBadge | app/dashboard/page.tsx:238-245 | There is no badge without a payment. "Paid" if and only if the payment succeeded, else "Pending". |
| Dashboard.PaidMatchesBadge | app/dashboard/page.tsx:176-245 | An application counts as paid if and only if its badge reads "Paid". |
| Dashboard.UnknownLooksLikeDraft | app/dashboard/page.tsx:63-95 | An unknown status has the icon and colour of `draft`. Each other known status is coloured differently from `draft`. |
| Dashboard.LoginRedirect | app/dashboard/page.tsx:49-53 | The page goes to `/login` if and only if the session check is over and nobody is signed in. |
| EducationForm.Apply | components/profile/EducationForm.tsx:41-45 | The edited input takes the value and every other field is kept. |
| EducationForm.ApplyLastWins | components/profile/EducationForm.tsx:41-45 | Typing into one input twice keeps only the second value. |
| EducationForm.EducationForm.constructor | components/profile/EducationForm.tsx:23 | The list starts as `data`, or empty. |
| EducationForm.EducationForm.Add | components/profile/EducationForm.tsx:25-35 | Exactly one blank entry is appended, and the existing entries are kept. |
| EducationForm.EducationForm.Remove | components/profile/EducationForm.tsx:37-39 | Only the indexed entry is dropped. The survivors keep their order, and the length drops by one for an index in range. |
| EducationForm.EducationForm.Update | components/profile/EducationForm.tsx:41-45 | Only entry `index` changes, to its edited copy. The length is kept. |
| EducationForm.EducationForm.Submit | components/profile/EducationForm.tsx:47-50 | While any entry lacks its institution, degree or start date, the browser blocks the submit and nothing is saved. Otherwise the list is handed to `onSave` exactly once, as it stands. |
| EducationForm.AddBlocks | components/profile/EducationForm.tsx:87-140 | A freshly added entry blocks the submit until its required inputs are filled. |
| EducationForm.OfferedRemoveKeepsOne | components/profile/EducationForm.tsx:64 | The offered Remove control never empties the list, and it drops exactly the chosen entry. |
| EmploymentForm.Apply | components/profile/EmploymentForm.tsx:31-35 | The edited input takes the value and every other field is kept. |
| EmploymentForm.ApplyCommutes | components/profile/EmploymentForm.tsx:31-35 | Edits to two different inputs give the same entry in either order. |
| EmploymentForm.EmploymentForm.constructor | components/profile/EmploymentForm.tsx:13 | The list starts as `data`, or empty. |
| EmploymentForm.EmploymentForm.Add | components/profile/EmploymentForm.tsx:15-25 | Exactly one blank entry is appended, and the existing entries are kept. |
| EmploymentForm.EmploymentForm.Remove | components/profile/EmploymentForm.tsx:27-29 | Only the indexed entry is dropped, and the order of the rest is kept. |
| EmploymentForm.EmploymentForm.Update | components/profile/EmploymentForm.tsx:31-35 | Only entry `index` changes. The length is kept. |
| EmploymentForm.EmploymentForm.Submit | components/profile/EmploymentForm.tsx:37-40 | While any entry lacks its employer, position or start date, the browser blocks the submit and nothing is saved. Otherwise the list is handed to `onSave` exactly once, as it stands. |
| EmploymentForm.AddBlocks | components/profile/EmploymentForm.tsx:77-117 | A freshly added entry blocks the submit until its required inputs are filled. |
| EmploymentForm.OfferedRemoveKeepsOne | components/profile/EmploymentForm.tsx:54 | The Remove control is offered only when more than one entry exists, so using it never empties the list, and it drops exactly the chosen entry. |
| ContactInfoForm.Defaults | components/profile/ContactInfoForm.tsx:13-34 | Every missing input defaults to `''`, and the checkbox is unticked unless saved ticked. |
| ContactInfoForm.DefaultsOfComplete | components/profile/ContactInfoForm.tsx:13-34 | A complete saved record is shown exactly as saved. |
| ContactInfoForm.Required | components/profile/ContactInfoForm.tsx:61-270 | Email and phone are required, and the alternate phone is not. The current address needs everything but the state. The permanent address needs the same parts if and only if the checkbox is unticked. |
| ContactInfoForm.Adjusted | components/profile/ContactInfoForm.tsx:38-42 | Ticked: the permanent address becomes a copy of the current one. Unticked: nothing changes. Nothing else ever changes. |
| ContactInfoForm.AdjustedIdempotent | components/profile/ContactInfoForm.tsx:38-42 | Adjusting twice is the same as adjusting once. |
| ContactInfoForm.TickedNeedsOnlyCurrent | components/profile/ContactInfoForm.tsx:199-270 | With the box ticked only non-permanent inputs can block. A submitted copy then has every required permanent part filled. |
| ContactInfoForm.OnSubmit | components/profile/ContactInfoForm.tsx:38-43 | The values are adjusted in place and handed to `onSave` exactly once. |
| ContactInfoForm.FormData.constructor | components/profile/ContactInfoForm.tsx:13-14 | The values object handed to `onSubmit` holds exactly the given record. |
| Settings.PasswordCheck | app/settings/page.tsx:158-169 | A mismatch is reported first, then a length under 8. The check passes if and only if both conditions hold. |
| Settings.AccountDefaults | app/settings/page.tsx:35-40 | The account form starts from the user's names, email and phone, with anything missing left empty. |
| Settings.SettingsPage.constructor | app/settings/page.tsx:35-63 | The page starts with the account defaults, empty password inputs, and the default notifications and preferences. |
| Settings.SettingsPage.HandleAccountSubmit | app/settings/page.tsx:66-81 | Once the browser lets the form through, it is sent as it stands. `updateUser` runs only when the reply carries a user. The toast reports the outcome. |
| Settings.SettingsPage.HandlePasswordSubmit | app/settings/page.tsx:84-169 | A failed check shows its toast and sends nothing. Otherwise only the current and new passwords are sent, and success clears all three inputs. |
| Settings.SettingsPage.ToggleNotification | app/settings/page.tsx:449-452 | Only the toggled key changes. |
| Settings.SettingsPage.HandleNotificationsSubmit | app/settings/page.tsx:107-119 | The settings are sent as they stand, with a toast. |
| Settings.SettingsPage.HandlePreferencesSubmit | app/settings/page.tsx:122-134 | The preferences are sent as they stand, with a toast. |
| Settings.SettingsPage.HandleDeleteAccount | app/settings/page.tsx:137-187 | Declining either confirmation sends nothing. Two yeses send the delete. Success logs out and navigates to `/`, with `/login` as the last navigation. A failure toasts and keeps the session. |
| Documents.UploadCheck | app/profile/documents/page.tsx:82-100 | A file passes if and only if a file and a type are chosen, it is at most 10 MiB, and its type is PDF, JPEG or PNG. The errors are reported in that order. |
| Documents.SizeLimitInclusive | app/profile/documents/page.tsx:89-93 | Exactly 10 MiB passes, and one byte more fails. |
| Documents.SizeBeforeType | app/profile/documents/page.tsx:89-100 | An oversized file of a wrong type is reported as oversized. |
| Documents.StatusIcon | app/profile/documents/page.tsx:135-144 | Approved and rejected have their own icons. Every other status gets the clock. |
| Documents.StatusColor | app/profile/documents/page.tsx:146-155 | The pending colour is used if and only if the status is neither approved nor rejected. |
| Documents.OtherStatusesLookPending | app/profile/documents/page.tsx:135-155 | Any other status is styled exactly as `pending`. |
| Documents.DocumentsPage.BeginUpload | app/profile/documents/page.tsx:82-108 | A rejected file shows its error, sends nothing, and leaves `uploading` alone. An accepted one raises `uploading` and posts the file with its type. |
| Documents.DocumentsPage.FinishUpload | app/profile/documents/page.tsx:108-126 | Only a `success` reply clears the chosen type and the input. `uploading` is false after every outcome. |
| Documents.DocumentsPage.HandleDelete | app/profile/documents/page.tsx:67-133 | The delete is sent only after the confirmation is accepted, with a toast for the outcome. |
| Documents.UploadRound | app/profile/documents/page.tsx:82-127 | A file is sent if and only if it passes the checks, and `uploading` is back to false afterwards. |
| Documents.DocumentsPage.constructor | app/profile/documents/page.tsx:52-53 | The page starts with no type chosen, an empty file input, and no upload running. |
| DashboardLayout.RootOnlyExact | components/layout/DashboardLayout.tsx:115 | `/` is highlighted if and only if the path is exactly `/`. |
| DashboardLayout.ActiveBelow | components/layout/DashboardLayout.tsx:115 | Every other entry is highlighted on every path that starts with its href. |
| DashboardLayout.ProfileActiveOnSubpages | components/layout/DashboardLayout.tsx:27-115 | Profile stays highlighted on the family and documents pages, beside their own entries. |
| DashboardLayout.PrefixNotSegmentAware | components/layout/DashboardLayout.tsx:115 | The test compares characters, not path segments, so `/profiles` highlights Profile. |
| DashboardLayout.Initials | components/layout/DashboardLayout.tsx:98 | The first letter of the first name, then that of the last name, at most two characters, and empty without a user. |
| DashboardLayout.Layout.ClickNav | components/layout/DashboardLayout.tsx:119-124 | Following a link closes the sidebar and navigates to its href. |
| DashboardLayout.Layout.constructor | components/layout/DashboardLayout.tsx:45-46 | The layout starts with the sidebar closed and no logout running, on the session store's browser. |
| DashboardLayout.Layout.OpenSidebar | components/layout/DashboardLayout.tsx:161 | The menu button opens the sidebar. |
| DashboardLayout.Layout.CloseSidebar | components/layout/DashboardLayout.tsx:66-86 | The backdrop and the close button close it. |
| DashboardLayout.Layout.BeginLogout | components/layout/DashboardLayout.tsx:48-51 | `isLoggingOut` is raised and the logout call is made. |
| DashboardLayout.Layout.FinishLogout | components/layout/DashboardLayout.tsx:51-57 | The session is cleared, the layout's own push to `/login` follows logout's, and `isLoggingOut` is lowered. |
| Family.WithField | app/profile/family/page.tsx:138-140 | The named input takes the value. Every other input and the `_id` are kept. |
| Family.SaveRoute | app/profile/family/page.tsx:68-76 | A PUT to `/profile/family-members/<id>` if and only if the member has an `_id`, otherwise a POST to the collection. |
| Family.BlankCreates | app/profile/family/page.tsx:45-76 | A blank form always creates. |
| Family.EditKeepsRoute | app/profile/family/page.tsx:68-140 | Typing never changes where the save goes. |
| Family.BlockedByRequired | app/profile/family/page.tsx:203-267 | The `required` part of the gate is closed if and only if one of the five `required` inputs (first name, last name, relationship, date of birth, nationality) reads empty. |
| Family.OptionalKeepsBlocked | app/profile/family/page.tsx:192-267 | Typing into the passport, email or phone input never opens or closes the `required` part of the gate. |
| Family.BlankBlocked | app/profile/family/page.tsx:45-54 | The blank form cannot be submitted. |
| Family.FamilyPage.ResetForm | app/profile/family/page.tsx:106-119 | All eight inputs are emptied, nothing is being edited, and the form is hidden. |
| Family.FamilyPage.HandleEdit | app/profile/family/page.tsx:121-125 | The member is loaded into the form, recorded as being edited, and the form is shown. |
| Family.FamilyPage.HandleChange | app/profile/family/page.tsx:138-140 | The form becomes `WithField(old, field, value)`. |
| Family.FamilyPage.HandleSubmit | app/profile/family/page.tsx:68-136 | While a `required` input is empty, the browser blocks the submit: nothing is sent and nothing changes. Once the `required` part of the gate is open, the form is sent along `SaveRoute`. Success says "updated" if and only if a member was being edited, else "added", and resets the form. A failure toasts and keeps the form. |
| Family.FamilyPage.HandleDelete | app/profile/family/page.tsx:90-131 | A member without an `_id` does nothing. Otherwise the delete is sent only after the confirmation, with a toast for the outcome. |
| Family.FamilyPage.constructor | app/profile/family/page.tsx:41-54 | The page starts with the form hidden, nobody being edited, and eight empty inputs. |
| Family.FamilyPage.OpenForm | app/profile/family/page.tsx:342 | The add button shows the form and keeps its contents and the member being edited. |
| Family.EditAndSave | app/profile/family/page.tsx:68-136 | Editing a listed member and saving it sends a PUT for that member once the `required` part of the gate is open. If a required input is empty, nothing is sent. |

## Left out

- Everything visual is not part of this model: layout, animation, icons as components, modals, loading spinners and disabled buttons.
- `Text.Lower` lower-cases only ASCII letters. JavaScript's `toLowerCase` also folds non-ASCII letters.
- Settings.PasswordCheck: the length counts Dafny characters (code points). JavaScript counts UTF-16 units, so a password with astral characters can differ.
- DashboardLayout.Initials: each initial is the first Dafny character (code point) of the name. `charAt(0)` takes the first UTF-16 unit, so a name that starts with an astral character gives half a surrogate pair in the source.
- `Auth.Stringify` writes the user's fields in the order of the `User` interface. `JSON.stringify` follows insertion order, which is set by the server's JSON.
- `JSON.parse` of the pending assessment is a parameter of `CompleteAssessment`. Its failure is the `catch` path.
- Timing, effect scheduling and concurrency are not modelled. This covers React's render cycle, dependency arrays, duplicate in-flight requests, and toast duration. A delayed push is logged with its delay.
- React Query caching and `invalidateQueries`: fetched lists are inputs, and a region of the page that re-fetches is not modelled.
- Floating-point display maths is not modelled: `formatFileSize`, `Math.round` of percentages, and the SVG progress arcs. The assessment progress is an exact `real`.
- The regular-expression email check of the contact form is not modelled. `Required` covers only presence.
- Lookups of status strings that name `Object.prototype` members (such as `constructor`) are not modelled. Such a status gets the fallback in the model, not a function value.
- Assessment.AssessmentPage.FetchQuestions: a reply without a `questions` field is modelled as a failure that keeps the old questions. The code first stores `undefined` as the questions and then throws in `map`, so the catch toast matches but the stored list does not.
- The questions request's query parameters `fromCountry` and `toCountry` are not recorded in its `Call` event, which holds only the verb and path.
- A `Call` event in a handler's log stands for one request through the shared HTTP client. What that client does on a failure (its error toast, the token refresh and retry, and the teardown after a failed refresh) is modelled once, in `HttpClient.Client`. It is not repeated in each handler's log, and a handler's "storage unchanged" ignores it.
- Family.Blocked, Family.BlockedByRequired, Family.OptionalKeepsBlocked, Family.FamilyPage.HandleSubmit, Family.EditAndSave and Settings.SettingsPage.HandleAccountSubmit: the browser's value checks for `type="email"` and `type="date"` inputs are not modelled. `Blocked` covers only the `required` part of the gate. In the source, a non-empty malformed email such as `abc` (the family form's email, the account form's email) also stops `onSubmit`. So does a date of birth that is not `yyyy-mm-dd`, which the browser shows as empty, so `required` then blocks. The model sends in both cases.
- A stored start date that is not a valid date makes the date input's `toISOString` throw while rendering. The model treats the input as filled whenever the stored date is non-empty.
- Console logging is not modelled, including the socket's `connect_error` handler, which only logs.
- `updateEducation`/`updateEmployment` with an index outside the list are not modelled. The model requires an index in range, because the controls only edit rendered entries.
- The logout `catch` branch in the layout is unreachable, because the session store's `logout` never rejects. So the push to `/login` always happens.
- The remaining handlers of query parameters, the clock and the socket server are parameters. Who calls them is not modelled.
