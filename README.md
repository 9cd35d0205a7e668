# TwoPelicans client portal — a verified model

This project models the client-portal back office of the TwoPelicans website in Dafny.

- **Admin guard.** The route `/api/auth/users` serves GET, POST and DELETE. Each handler first checks for a session and then for the caller's `admin` role.
- **Provisioning workflow.** POST provisions a client account in steps: create the identity, insert the profile row, read it back, probe the login, and optionally send a welcome e-mail. When a step fails, a compensating delete removes the identity again.
- **`portal-admin` command-line tool.** It parses `--key value` arguments and runs `create`, `list`, `verify` and `delete` against the same store. `delete` first asks for a typed confirmation.
- **Middleware.** It gates `/portal/dashboard*` and `/portal/admin*`.
- **Setup.** Two bootstrap paths create the administrator and a demo client: the setup API route, and the `setup-supabase` script. A second run of the script creates no second administrator.
- **Message relays.** The client-portal message route and the public contact route both forward mail, with their input checks and response mapping.
- **Browser pages.** The client dashboard (message list, compose and send, newest-first display), the browser admin panel (client list in browser storage), and the password-reset form.
- **Blog.** Post lookup, featured posts and recent posts, plus the blog index's choice of a featured post and the list beside it.
- **Storage audit.** The scanner that reports lines using `localStorage`/`sessionStorage` and flags portal files that mention the hosted back end.

The hosted identity service and database are one `Store` class (module `Backend`):

- The store holds a table of identities and a table of profile rows.
- It keeps an id counter. Ids are naturals it assigns, where the real service uses UUIDs.
- Every remote call takes an `Outcome`:
  - `Succeed` is a normal answer;
  - `Fail(message)` is an `{ error }` answer;
  - `Crash` is a rejected promise or a thrown exception.

  A crashing call has no effect. Every call that takes an `Outcome` has each of its outcomes covered by the handler's contract. Session lookups and client construction take no `Outcome`: a session is an input, and their faults are listed under "Left out".
- Mail relays are a `Mailer` whose outbox records each request. The relay's answer is an input.
- Browser storage is a string-keyed map. Token decoding is given as an input.
- Clocks are integer parameters. Random password picks are nondeterministic choices from the alphabet.

Code that updates state in place is modelled as classes with `modifies` clauses: the store, the pages and the blog's shared post list. Loops are `while` loops with invariants. The route logic and the queries are functions.

## Model

| member | source | states |
|---|---|---|
| UsersRoute.AdminGuard | app/api/auth/users/route.ts:10-24 | no session ⇔ 401 case; admitted ⇔ the caller's own profile exists with role admin; an absent profile or any other role is refused |
| UsersRoute.Refusal | app/api/auth/users/route.ts:11-24 | a refused caller gets 401 without a session and 403 otherwise |
| UsersRoute.CheckNewUser | app/api/auth/users/route.ts:69-93 | the body is accepted iff email, password and company are all non-empty, the e-mail matches the regex and the password has ≥ 8 characters; each failure gives its own message, in the handler's order |
| UsersRoute.WelcomeEmail | app/api/auth/users/route.ts:178-180 | the welcome message is addressed to the new account's e-mail, and its subject is `Welcome to TwoPelicans AI Portal - ` followed by the company |
| UsersRoute.Get | app/api/auth/users/route.ts:5-44 | guard first; 200 iff admitted and the read succeeds, with the profiles newest first; a read failure is 500 |
| UsersRoute.Post | app/api/auth/users/route.ts:46-246 | refusal and invalid input touch nothing; an identity error gives 400 with the service's message and inserts no profile; 200 iff admitted, valid, unregistered and every call through the login probe succeeds, with exactly one new identity and profile; insert or verify failures delete the identity again; a compensating delete that answers an error keeps the same 500 answer and leaves the identity; a throw after the identity exists gives the catch block's `Internal server error`; on any failure at most this run's identity remains; the welcome request, sent as written, never puts anything in the relay outbox |
| UsersRoute.Provision | app/api/auth/users/route.ts:119-212 | after the identity exists: success ⇔ insert, verify and probe succeed; every failure is 500 and removes the identity unless a delete call itself failed, an error answer from that delete keeping the step's message; a throw from any call reached gives the catch block's `Internal server error`; an insert failure leaves the profile table as it was; no e-mail is sent |
| UsersRoute.Confirm | app/api/auth/users/route.ts:143-212 | after the profile row exists: success ⇔ the read-back succeeds and the login probe does not throw; a read-back error gives the verification message unless the delete throws, and removes the identity when the delete succeeds; a throw from the read-back, the probe or the delete gives `Internal server error`; the welcome request, sent as written, sends nothing |
| UsersRoute.RollBack | app/api/auth/users/route.ts:130-158 | the compensating delete: unless it throws, the step's 500 message is returned, whether the delete succeeded (identity gone) or answered an error (identity kept); a throw falls through to the catch-block cleanup and its `Internal server error` |
| UsersRoute.CleanUp | app/api/auth/users/route.ts:227-245 | the catch block deletes `createdUserId` when that call succeeds and always answers 500 |
| UsersRoute.RequestWelcome | app/api/auth/users/route.ts:176-211 | the welcome step as written: the request reaches the contact route, which refuses it, so the relay outbox is unchanged in every configuration |
| UsersRoute.SendWelcome | app/api/auth/users/route.ts:175-212 | the corrected welcome delivery: exactly one relay request to the new address; the relay's answer never changes the response |
| UsersRoute.Delete | app/api/auth/users/route.ts:248-300 | guard first; a missing id gives 400 and no call; 200 iff the delete succeeds for an existing identity, which is then removed; an error gives 400 with its message; profile rows untouched |
| Backend.Single | app/api/auth/users/route.ts:144-148 | `.single()` yields a row iff exactly one row matched |
| Backend.ProfileById | app/api/auth/users/route.ts:16-20 | the profile with that id when one exists, none otherwise |
| Backend.ProfileByEmail | scripts/portal-admin.js:98-102 | a result has the e-mail and is in the table; no row with the e-mail means no result |
| Backend.OnlyMatch | app/api/auth/users/route.ts:144-148 | with distinct ids an id matches at most one row, and exactly one when present |
| Backend.FindUserByEmail | scripts/portal-admin.js:277 | `find` on identities: a result exists iff some identity has the e-mail, and it has that e-mail |
| Backend.RemoveAppended | app/api/auth/users/route.ts:135 | deleting the identity just appended restores the identity table |
| Backend.ReadById | app/api/auth/users/route.ts:144-148 | the read answers the row by id, the error message, or a throw, per the outcome |
| Backend.ReadByEmail | scripts/portal-admin.js:290-294 | the same for a read by e-mail |
| Backend.Patch | scripts/setup-supabase.js:104-110 | an update changes only role and company of the row with that id; other rows are untouched |
| Backend.AdminIdentity | scripts/setup-supabase.js:35-43 | the administrator identity has the admin e-mail and the admin role |
| Backend.DemoIdentity | app/api/auth/setup/route.ts:65-73 | the demo identity has the demo e-mail, the client role and the company the setup path gives it (the route and the script differ) |
| Backend.RegistrationsAppend | scripts/setup-supabase.js:29-30 | one appended identity adds one registration for its own e-mail and none for others |
| Backend.RegisteredIffCounted | scripts/setup-supabase.js:29-30 | `users.some(email)` holds iff the e-mail's registration count is positive |
| Backend.ClientIdentity | app/api/auth/users/route.ts:99-107 | a new client identity is confirmed, has the given e-mail and the client role |
| Backend.ClientProfile | app/api/auth/users/route.ts:120-128 | a new client profile row is active, role client, with the identity's id and e-mail |
| Backend.NewestFirst | app/api/auth/users/route.ts:27-30 | the listing has as many rows as the table |
| Backend.NewestFirstOrdered | app/api/auth/users/route.ts:27-30 | the listing is ordered by creation time, newest first, and is a permutation of the table |
| Backend.NewestFirstSameRows | app/api/auth/users/route.ts:27-30 | every row of the table is listed, and only rows of the table are |
| Backend.Store.CreateUser | app/api/auth/users/route.ts:99-115 | success appends one identity with the next id; an already registered e-mail is refused; an error or a throw changes nothing |
| Backend.Store.DeleteUser | app/api/auth/users/route.ts:282-290 | success iff the call succeeds and the identity exists, which is then removed; profile rows stay |
| Backend.Store.InsertProfile | app/api/auth/users/route.ts:120-141 | the row is appended iff the call succeeds, its id names an identity and no row has it yet; otherwise nothing changes |
| Backend.Store.UpdateProfile | app/api/auth/setup/route.ts:55-62 | on success every row is patched; an id with no row changes nothing and is not an error |
| PortalAdmin.GenerateSecurePassword | scripts/portal-admin.js:39-46 | 16 characters, each from the tool's alphabet |
| PortalAdmin.ParseArgs | scripts/portal-admin.js:53-65 | the command is the first argument; the options are the fold of the `--key value` pairs from index 1 |
| PortalAdmin.OptionsLastWins | scripts/portal-admin.js:58-62 | a key is set iff some pair names it, and it holds the value of the last such pair |
| PortalAdmin.OptionsDomain | scripts/portal-admin.js:58-62 | the keys recorded after p pairs are exactly the keys of those pairs |
| PortalAdmin.OptionsValue | scripts/portal-admin.js:58-62 | a pair with no later pair for its key decides that key's value |
| PortalAdmin.DashedKey | scripts/portal-admin.js:59 | `--name` is read under `name` |
| PortalAdmin.ChoosePassword | scripts/portal-admin.js:69 | the given password is used, else a generated 16-character one |
| PortalAdmin.CreateUser | scripts/portal-admin.js:68-203 | the local checks in order; an existing profile stops it; success iff every call succeeds, with one identity and one profile added; insert and verify failures delete the identity when the delete succeeds, and keep it with the same report when the delete answers an error; a throw from the insert, the rollback, the read-back, the login probe or the sign-out is reported as unexpected and leaves the identity, and the profile if inserted, behind |
| PortalAdmin.Complete | scripts/portal-admin.js:128-182 | after the identity exists: success ⇔ insert, verify and probe succeed; the identity is removed only by a rollback that succeeds, and kept on every other path, its answer being ignored; a throw from the read-back or the probe is reported as unexpected with the profile kept |
| PortalAdmin.ListUsers | scripts/portal-admin.js:205-253 | a fetch error is reported; an empty table is "no users"; otherwise admins hold only admin rows and clients only client rows, each group newest first, together the table's rows exactly (as a multiset); the total is the table size |
| PortalAdmin.Classify | scripts/portal-admin.js:308-316 | each of the four summaries is chosen exactly when its combination of identity found and profile found holds |
| PortalAdmin.ClassifyDistinguishes | scripts/portal-admin.js:308-316 | the four summaries are distinct: equal summaries mean equal findings |
| PortalAdmin.VerifyUser | scripts/portal-admin.js:255-321 | identity found ⇔ `find` matches the e-mail; profile found ⇔ the `.single()` lookup succeeds with exactly one row |
| PortalAdmin.DeleteUser | scripts/portal-admin.js:323-377 | an e-mail is required and only the answer `DELETE` proceeds; success iff the profile is found and its identity deleted, otherwise no identity changes |
| Middleware.AnyPrefix | middleware.ts:65 | `some(startsWith)`: true iff some prefix in the list starts the path |
| Middleware.ProtectedByPrefix | middleware.ts:64-65 | protected ⇔ the path starts with `/portal/dashboard` or `/portal/admin` |
| Middleware.Route | middleware.ts:56-92 | `/portal` and `/api/` skip everything; unprotected paths pass untouched; no session means redirect to `/portal`; admin paths need an admin profile or redirect to `/portal/dashboard`; the dashboard needs only a session |
| Middleware.ResetPasswordPassesThrough | middleware.ts:63-67 | `/portal/reset-password` passes without any lookup |
| Middleware.LongerNamesAreGated | middleware.ts:77 | `/portal/administrator` is gated like the admin page |
| Middleware.DashboardForAnyRole | middleware.ts:77-92 | a signed-in caller reaches the dashboard whatever the role |
| SetupRoute.Finish | app/api/auth/setup/route.ts:55-92 | after the admin exists: 200 ⇔ neither the role update nor the demo creation throws; the demo identity is added iff its creation succeeds for an unregistered e-mail; earlier identities are kept |
| SetupRoute.Post | app/api/auth/setup/route.ts:6-92 | a wrong key gives 403 with no store access; an existing admin profile gives 400; an admin creation error gives 400 and no demo; update and demo errors are only logged; 200 iff the admin was created and no later call threw, reporting the demo e-mail only when created; no profile row is written |
| SetupScript.AdminProfile | scripts/setup-supabase.js:73-81 | the inserted admin row is active with role admin |
| SetupScript.EnsureAdmin | scripts/setup-supabase.js:29-59 | a listed admin identity is reused; otherwise exactly one is created, or the error is reported with nothing changed |
| SetupScript.EnsureAdminProfile | scripts/setup-supabase.js:61-117 | an existing profile is promoted; otherwise a row is inserted, with the fallback update on an insert error; it throws exactly when a call it reaches throws; the new table is `ProfilesAfter`, which writes no row but the administrator's, adds at most the administrator's row and leaves the table as it was on a throw or a failed update |
| SetupScript.Promote | scripts/setup-supabase.js:104-116 | the update keeps the table length and patches role and company of the row with that id only, every other row unchanged; an error or a throw leaves the table as it was; a missing row is not an error |
| SetupScript.EnsureDemo | scripts/setup-supabase.js:119-145 | the demo identity is created iff the listing succeeds, creation succeeds and none exists |
| SetupScript.ProfilesAfter | scripts/setup-supabase.js:61-117 | the profile table after step 2: every other row stays in place, ids are kept, at most the administrator's row is added and only when it had none, and a throw or a failed update of an existing row changes nothing |
| SetupScript.UsersAfterRun | scripts/setup-supabase.js:29-145 | the identity table after a run: the old table is a prefix, with at most the administrator and the demo identity added |
| SetupScript.SetupDatabase | scripts/setup-supabase.js:22-182 | an admin creation error aborts before any profile step; at most one admin registration is added; a run that obtains no administrator changes nothing; otherwise the profile table is exactly `ProfilesAfter` and the identity table exactly the old one plus the administrator if created plus the demo if created, so no identity is deleted; after a completed run the admin exists |
| SetupScript.Finish | scripts/setup-supabase.js:61-165 | steps 2-4 keep the admin registration count; the demo is created exactly when step 2 did not throw, the listing answered, none exists and creation succeeds, and it is the only identity added; the profile table is exactly `ProfilesAfter`; it throws exactly when a call of steps 2-4 throws |
| SetupScript.RunTwice | scripts/setup-supabase.js:29-59 | a second run after a completed first one creates no second admin; starting from none, exactly one admin registration exists |
| PortalMessage.Notification | app/api/portal-message/route.ts:18-51 | the relay request has the prefixed subject, the client as reply-to, and the configured sender and recipient |
| PortalMessage.SendOutcome | app/api/portal-message/route.ts:53-64 | 200 iff the relay answers without error, carrying its id; a relay error is 500 "Failed to send message"; a throw is 500 "Internal server error" |
| PortalMessage.Post | app/api/portal-message/route.ts:6-72 | a missing subject, message or client e-mail gives 400 and sends nothing; otherwise exactly one relay request and the mapped answer |
| PortalMessage.Get | app/api/portal-message/route.ts:75-79 | always 200 with an empty list |
| PortalMessage.CompanyOptional | app/api/portal-message/route.ts:10 | a message without a company is accepted and its subject only gains the prefix |
| Contact.OrNotSpecified | app/api/contact/route.ts:20-24 | a missing or empty role or timeline renders as "Not specified" |
| Contact.OrDefault | app/api/contact/route.ts:53-54 | a set, non-empty address is used; an unset or empty one falls back to the default address |
| Contact.Render | app/api/contact/route.ts:14-28 | content exists iff a message is present; its message has every line feed replaced, so none is left |
| Contact.InquiryEmail | app/api/contact/route.ts:52-58 | subject "New Inquiry from NAME at COMPANY", reply-to the sender's e-mail, configured or default addresses |
| Contact.DevModeKeys | app/api/contact/route.ts:31 | development mode holds exactly when the relay key is unset, empty or the placeholder |
| Contact.PlanFor | app/api/contact/route.ts:6-58 | a missing message fails before the key check; an unset or placeholder key accepts without sending; otherwise the inquiry is sent |
| Contact.Normalize | app/api/contact/route.ts:63-85 | failure iff no answer, or no nested data and an error; nested data's id wins; then a top-level id; otherwise success without id |
| Contact.Post | app/api/contact/route.ts:6-94 | sends exactly the planned inquiry, or nothing when rejected or in development |
| Contact.FormOfWelcomeBody | app/api/auth/users/route.ts:178-202 | the welcome request body has no `message` member |
| Contact.WelcomeRequestRejected | app/api/contact/route.ts:27 | as written, the welcome request always fails with 500 and sends nothing |
| Mail.Mailer.Send | app/api/contact/route.ts:52-58 | one relay call: exactly that request is added to the outbox, and the relay's answer is handed back |
| Dashboard.StorageKey | app/portal/dashboard/page.tsx:59 | the key is `messages_` followed by the e-mail |
| Dashboard.StorageKeyInjective | app/portal/dashboard/page.tsx:59 | different clients never share a storage key |
| Dashboard.RequestFor | app/portal/dashboard/page.tsx:77-82 | content becomes `message`; the client's e-mail and company are attached |
| Dashboard.SentRequestsAreComplete | app/portal/dashboard/page.tsx:69 | a request past the page's guard meets the message route's required fields |
| Dashboard.SentMessage | app/portal/dashboard/page.tsx:86-94 | the new record is sent, read, from the company, with the form's subject and content |
| Dashboard.DisplayOrderNewestFirst | app/portal/dashboard/page.tsx:481 | the display order is newest first and a permutation of the list |
| Dashboard.ClientDashboard.Load | app/portal/dashboard/page.tsx:47-66 | no token redirects; otherwise messages come from the client's own key when present |
| Dashboard.ClientDashboard.SendMessage | app/portal/dashboard/page.tsx:68-110 | the guard makes it a no-op, every field unchanged, the signed-in user included; otherwise one request; on ok one message is appended and persisted under the client's key, the form reset and compose closed; otherwise state is unchanged; sending ends false |
| Dashboard.ClientDashboard.SortForDisplay | app/portal/dashboard/page.tsx:481 | the state array is sorted in place, newest first |
| AdminPanel.AccessRedirect | app/portal/admin/page.tsx:39-59 | the panel shows iff the decoded e-mail is the admin's; other e-mails go to the dashboard, a missing or bad token to `/portal` |
| AdminPanel.Without | app/portal/admin/page.tsx:111 | the survivors are exactly the accounts under other e-mails |
| AdminPanel.RemovingAbsentKeepsList | app/portal/admin/page.tsx:111 | removing an e-mail no account has keeps the list, order included |
| AdminPanel.RemovalKeepsOrder | app/portal/admin/page.tsx:111 | removal distributes over concatenation, so relative order is kept |
| AdminPanel.RemoveUndoesAdd | app/portal/admin/page.tsx:95-113 | adding an account under a new e-mail and removing it restores the list |
| AdminPanel.DemoSurvivesOfferedRemoval | app/portal/admin/page.tsx:277-286 | removal through an offered action never drops the demo account |
| AdminPanel.CredentialsText | app/portal/admin/page.tsx:118 | the text starts with the company line, contains the e-mail line and ends with the password line and the closing note |
| AdminPanel.Panel.Mount | app/portal/admin/page.tsx:39-59 | the redirect is the access decision; only the admin loads the list |
| AdminPanel.Panel.LoadClients | app/portal/admin/page.tsx:61-78 | a stored list is shown as stored; with nothing stored, exactly the demo account is seeded and persisted |
| AdminPanel.Panel.GeneratePassword | app/portal/admin/page.tsx:80-87 | 12 characters from the alphabet; e-mail and company untouched |
| AdminPanel.Panel.AddClient | app/portal/admin/page.tsx:89-107 | an empty field changes nothing; otherwise one account appended at the end, persisted, form reset |
| AdminPanel.Panel.RemoveClient | app/portal/admin/page.tsx:109-115 | a confirmed removal filters and persists; an unconfirmed one changes nothing |
| AdminPanel.Panel.CopyCredentials | app/portal/admin/page.tsx:117-122 | the credentials text is written to the clipboard and the account marked copied |
| ResetPassword.ValidationError | app/portal/reset-password/page.tsx:36-44 | no error iff the entries match and the password has ≥ 8 characters; a mismatch is reported before the length |
| ResetPassword.MismatchReportedFirst | app/portal/reset-password/page.tsx:36-44 | a short, mistyped password is reported as a mismatch |
| ResetPassword.ResetForm.CheckSession | app/portal/reset-password/page.tsx:20-29 | without a session the expired-link error is shown |
| ResetPassword.ResetForm.Submit | app/portal/reset-password/page.tsx:31-62 | error and message are cleared first; a validation error sets no loading and calls nothing; otherwise one update call; its error or the success message is shown and loading ends false |
| Blog.SitePosts | lib/blog-data.ts:16-305 | the site has four posts |
| Blog.SitePostsDistinct | lib/blog-data.ts:18-222 | slugs and ids are pairwise distinct |
| Blog.SitePostsNewestFirst | lib/blog-data.ts:79-299 | the posts are declared newest first |
| Blog.GetBlogPost | lib/blog-data.ts:307-309 | none iff no post has the slug; a result has the slug and is a post |
| Blog.LookupUnique | lib/blog-data.ts:307-309 | with distinct slugs the lookup of any post's slug returns that post |
| Blog.GetFeaturedPosts | lib/blog-data.ts:311-313 | exactly the featured posts |
| Blog.SliceEnd | lib/blog-data.ts:318 | `slice(0, limit)` ends at min(limit, n), counting a negative limit from the end |
| Blog.RecentProperties | lib/blog-data.ts:315-319 | at most `limit` posts, newest first, drawn from the list |
| Blog.RecentRepeats | lib/blog-data.ts:316-317 | after the in-place sort later calls see the sorted list and return the same posts |
| Blog.SiteOrderUnchanged | lib/blog-data.ts:315-319 | on the site's posts the sort changes nothing and the default call returns the first three |
| Blog.PostStore.GetRecentPosts | lib/blog-data.ts:315-319 | sorts the shared array in place, newest first, and returns the reference prefix |
| Blog.FeaturedPost | app/blog/page.tsx:7 | none iff no post is featured; otherwise the first featured post |
| Blog.RecentExcludesOnlyFeatured | app/blog/page.tsx:8 | with distinct ids the list holds every post except the featured one |
| Blog.NoFeaturedListsAll | app/blog/page.tsx:8 | without a featured post every post is listed |
| Blog.SitePage | app/blog/page.tsx:7-8 | on the site the first post is featured and the list is the other three, the second featured post included |
| StorageAudit.JoinPath | test-supabase-integration.js:15 | joining keeps a `.ts`/`.tsx` suffix |
| StorageAudit.FlaggedSound | test-supabase-integration.js:29-39 | each report is a flagged line at its 1-based number with its trimmed text |
| StorageAudit.FlaggedSoundAt | test-supabase-integration.js:29-39 | a single report describes a flagged line at its 1-based number |
| StorageAudit.FlaggedComplete | test-supabase-integration.js:29-39 | every flagged line is reported |
| StorageAudit.ScanLines | test-supabase-integration.js:30-39 | the loop pushes exactly the reference reports |
| StorageAudit.CheckFile | test-supabase-integration.js:25-55 | the two scans of one file, as the reference states them |
| StorageAudit.CommentedFileHidesLocalStorage | test-supabase-integration.js:28 | a file containing `// ` anywhere yields no local-storage report |
| StorageAudit.FileIssuesComplete | test-supabase-integration.js:28-55 | every flagged line is reported when its scan runs, and the session scan has no `// ` exclusion |
| StorageAudit.FileIssuesSound | test-supabase-integration.js:28-55 | every report is a real flagged use of that file |
| StorageAudit.TreeIssuesSnoc | test-supabase-integration.js:14-23 | the walk concatenates the entries' reports in listing order |
| StorageAudit.TreeReportsSourceFiles | test-supabase-integration.js:24 | only `.ts`/`.tsx` files are ever reported |
| StorageAudit.EntryReportsSourceFiles | test-supabase-integration.js:18-24 | the same for one entry |
| StorageAudit.SkippedEntryIgnored | test-supabase-integration.js:18-20 | `node_modules`, `.next` and `.git` contribute nothing |
| StorageAudit.CheckTree | test-supabase-integration.js:10-60 | the walk returns exactly the reference reports |
| StorageAudit.CheckEntry | test-supabase-integration.js:17-56 | one entry's reports, as the reference states them |
| StorageAudit.SupabaseFlagSpellings | test-supabase-integration.js:79 | the back-end flag is case-sensitive: `Supabase` counts, `SUPABASE` does not |
| StorageAudit.Relative | test-supabase-integration.js:83 | a path under the working directory has it replaced by `.`; a path not containing it is kept |
| StorageAudit.PortalFilesSound | test-supabase-integration.js:63-93 | every record is that of a reached, non-skipped source file whose joined path contains `/portal/` |
| StorageAudit.PortalFilesComplete | test-supabase-integration.js:63-93 | every reached source file whose joined path contains `/portal/` is recorded |
| StorageAudit.ReachedNotSkipped | test-supabase-integration.js:71-73 | the walk reaches no entry named `node_modules`, `.next` or `.git`, and each reached path ends with `/` and the file name |
| StorageAudit.PortalFilesSnoc | test-supabase-integration.js:68-90 | the records of a listing extended by one entry gain that entry's records, in listing order |
| StorageAudit.CheckPortalTree | test-supabase-integration.js:65-92 | the loop over a listing pushes exactly the reference records |
| StorageAudit.CheckPortalEntry | test-supabase-integration.js:69-89 | one entry's records, as the reference states them |
| StorageAudit.SummaryAgreesWithFlags | test-supabase-integration.js:79-80 | a page the summary sees importing the back-end client or calling `supabase.auth` is also flagged as using the back end, and `supabase.auth` counts as auth logic |
| StorageAudit.PortalPages | test-supabase-integration.js:114 | exactly the records whose path contains `/portal/` and ends in `.tsx` |
| Passwords.Draw | scripts/portal-admin.js:41-44 | n characters, each from the alphabet |
| Strings.IndexOf | scripts/portal-admin.js:59 | -1 iff the pattern does not occur; otherwise the pattern occurs there and at no earlier position |
| Strings.ReplaceFirst | scripts/portal-admin.js:59 | a text without the pattern is kept; a leading pattern is replaced |
| Strings.ReplaceFirstAt | scripts/portal-admin.js:59 | when the pattern occurs, exactly the occurrence `indexOf` finds is replaced and the text before and after it is kept |
| Strings.LeadingSpaces | test-supabase-integration.js:31 | the count of leading white space stops at the first character that is not white space |
| Strings.Trim | test-supabase-integration.js:31 | the result is no longer than the text and neither starts nor ends with white space |
| Strings.TrimSpec | test-supabase-integration.js:31 | the trimmed text is the infix of the text right after its leading white space, and only white space comes before and after it: `trim` removes white space and nothing else |
| Strings.Split | test-supabase-integration.js:29 | at least one piece, none holding the separator |
| Strings.JoinSplit | test-supabase-integration.js:29 | joining the split pieces gives the text back |
| Strings.ReplaceNewlines | app/api/contact/route.ts:27 | no line feed is left |
| Strings.ReplaceNewlinesIsSplitJoin | app/api/contact/route.ts:27 | global replacement equals split-at-line-feeds then join with `<br>` |
| Sorting.SortDescSorted | lib/blog-data.ts:317 | the comparator sort yields a non-increasing sequence |
| Sorting.SortDescPermutation | lib/blog-data.ts:317 | and a permutation of its input |
| Sorting.SortDescOfSorted | lib/blog-data.ts:317 | a sorted input is left as it is, because the sort is stable |
| Sorting.SortInPlace | app/portal/dashboard/page.tsx:481 | the in-place sort computes the reference sort |
| Seqs.Filter | app/portal/admin/page.tsx:111 | `filter` keeps exactly the elements that pass |
| Seqs.FilterAppend | app/portal/admin/page.tsx:111 | `filter` keeps relative order |
| Seqs.FilterSplitsMultiset | scripts/portal-admin.js:226-227 | a predicate and its negation split the elements between the two filters |
| Sorting.FilterSortedDesc | scripts/portal-admin.js:213-227 | filtering a newest-first listing keeps it newest first |
| Seqs.FindIndex | lib/blog-data.ts:308 | `find` stops at the first element that passes |
| Validation.EmailCheckIsRegex | app/api/auth/users/route.ts:79-80 | the e-mail check accepts exactly the strings the regex matches |
| Validation.ValidEmailMatches | scripts/portal-admin.js:48-51 | an accepted e-mail splits as run `@` run `.` run |
| Validation.MatchingEmailValid | scripts/portal-admin.js:48-51 | every such split is accepted |

## Left out

- JSON bodies that fail to parse, and members of the wrong type. A string field is either present or `None`.
- String lengths are counted in characters, not UTF-16 code units. This affects the 8-character password rules.
- The cookie adapter of the middleware, the Next.js request and response objects, and `NextResponse.redirect`. The middleware returns a verdict instead.
- Cascade deletion of profile rows when an identity is deleted. The source only assumes it. The model therefore keeps the profile row on the paths that insert it and then delete the identity, and its contracts say so.
- Faults in the guard's own profile read. A failed read yields no data, which the guard treats like a missing profile.
- Session lookups and client construction. `supabase.auth.getUser()` (users route, middleware) and `getSession()` (reset page) become an input: a caller id or none, a session or none. So the 500 that the users route answers when `getUser` or `createServerSupabaseClient` throws is not modelled.
- Strings.ReplaceFirst: its own contract covers a text without the pattern and a text starting with it. The general case, where the first occurrence is further in, is the lemma `Strings.ReplaceFirstAt`. That lemma is kept apart so that proofs about callers do not carry the quantified facts of `indexOf`.
- Strings.Trim: its own contract states only the length bound and that the result neither starts nor ends with white space. That it is the infix after the leading white space, with only white space around it, is the lemma `Strings.TrimSpec`. Every storage-audit report carries a trimmed line, and those quantified facts would make the audit's proofs too expensive.
- PortalAdmin.VerifyUser, SetupScript.EnsureAdmin, SetupScript.EnsureDemo, SetupScript.RunTwice: `auth.admin.listUsers()` is called without page parameters (scripts/portal-admin.js:270, scripts/setup-supabase.js:29 and :122). The hosted service then answers with one page of identities, 50 by default. The model takes that listing to hold every identity, so it searches the whole identity table. With more identities than one page, the source can miss an existing e-mail, and the model does not capture this. `verify` would then print that the identity was not found. The setup script would try to create the administrator again and stop on the service's refusal at scripts/setup-supabase.js:45-48, so the contracts that rely on a complete listing do not cover that case. These are VerifyUser's identity-found iff, EnsureAdmin's reuse branch, EnsureDemo's existing-demo test and RunTwice's no-second-creation result.
- UsersRoute.Delete: the `id` query parameter is `Option<Id>`, with ids as naturals. `searchParams.get('id')` can also give an empty string (`?id=`), which `!userId` rejects with the same 400 as a missing parameter (app/api/auth/users/route.ts:270-276). The model has no empty id, so that request is represented as `None`, and a non-empty id that names no identity is represented by a natural that no identity has.
- PortalAdmin.ListUsers: a role is one of the two values `admin` and `client`, as the `Profile` type of lib/supabase.ts declares. The two groups then cover the table, and their sizes add up to the total the tool prints. A row with another role string would be in neither group; the model does not represent one.
- The database trigger that might create profile rows. Without it, the setup route's role update finds no row, so a newly created administrator has no profile. `SetupRoute.Post` states this.
- The order in which the database returns rows with equal `created_at`. The model uses a stable newest-first sort.
- The command-line tool's `main()` dispatch on the command name, its console output and its readline prompt. The typed confirmation is an input.
- HTML markup of every e-mail template. Only subject, reply-to, addresses and the newline substitution are kept.
- Randomness. Each password character is a nondeterministic pick from the alphabet.
- Timers: the reset page's delayed redirect is only recorded as scheduled, and the panel's "copied" indicator is never cleared.
- Clocks and date parsing: timestamps and dates are integers with their order.
- The filesystem. The audit walks a tree value given as input. The audit's console report and its `fs.existsSync` checks are not modelled, and `SummaryChecks` is only the substring tests.
- Rendering of every page, the sign-out button of the dashboard and the static marketing pages.
- Dashboard.ClientDashboard.Load: a stored message list that fails to parse, which redirects in the source, is not modelled. Stored lists are values.
- ResetPassword.ResetForm.Submit: when the update call rejects, the source leaves the promise unhandled. The model stops with loading still true, without modelling the runtime's unhandled-rejection report.

## Findings

| source | as written | input that shows it | evidently intended | confidence | as-written member | corrected member |
|---|---|---|---|---|---|---|
| app/api/auth/users/route.ts:176-211 with app/api/contact/route.ts:9-27 | the welcome e-mail is posted to `/api/contact` as `{to, subject, html}`; the contact route reads `message.replace(...)`, which throws on the missing `message`, so it answers 500 and nothing is sent (in every configuration, development included) | a POST with valid input and `sendWelcomeEmail: true` | deliver a welcome message to the new account's address | not executed | Contact.WelcomeRequestRejected | UsersRoute.SendWelcome |

`UsersRoute.Post` performs the welcome step as written, through `UsersRoute.RequestWelcome`, so its contract leaves the relay outbox unchanged. `UsersRoute.SendWelcome` is the corrected step and is not called by the handler.
