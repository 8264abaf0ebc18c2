# EmpleaLocal job board — a Dafny model of its data layer and business rules

EmpleaLocal is a browser job board for a small town. Employers post job
offers and applicants apply to them. Every page keeps its state in the
browser's storage through one object, `StorageManager`. On top of it sit
three page controllers:

- `AuthController`: login and registration;
- `JobsController`: job search and applying;
- `DashboardController`: the employer and applicant panels.

The project models these four objects in six modules:

| module | file | source | what it holds |
|---|---|---|---|
| `Seqs` | `seqs.dfy` | — | `findIndex`, `find`, `some` and `filter` over a `seq`, with the lemmas the other modules use |
| `Text` | `text.dfy` | — | the `\s` whitespace class, `trim`, ASCII `toLowerCase`, `includes`, UTF-16 `length` and the decimal form of a count |
| `Storage` | `storage.dfy` | `js/storage.js` | the user, job and application records, the records the create methods build, the pure queries, `searchJobs`, and the `StorageManager` class with `seq` fields for the three collections and an `Option` for the session |
| `Auth` | `auth.dfy` | `js/auth.js` | the email pattern, the registration chain as a function, and the `AuthController` class (mode, selected account type, login, registration) |
| `Jobs` | `jobs.dfy` | `css/js/jobs.js` | the apply guards, the results label, the badge and category tables, the expanded-card set, and the `JobsController` class |
| `Dashboard` | `dashboard.dfy` | `js/dashboard.js` | the stat counts, the job and application listings, the job form check, and the `DashboardController` class |

Things the source takes from the browser are parameters of the model:

- Ids come from `Date.now()` and are passed in as `freshId`.
- Timestamps are passed in as `now`, in milliseconds.
- `confirm`'s answer is a `confirmed` flag.
- The category in the page URL is a `urlCategory` argument, and the option values of the category select are a `categoryOptions` argument.
- Seed data is a `seed` argument.

Where a record is built with an object spread (`{ id, ...data, status,
createdAt }`), the caller's data is a record whose overridable fields are
`Option`s. A supplied `id` therefore wins over the fresh one. A supplied
`status` or `createdAt` never does.

## Model

| member | source | states |
|---|---|---|
| Seqs.FindIndex | js/storage.js:212 | `findIndex` gives -1 exactly when nothing matches, otherwise the first matching index |
| Seqs.Find | js/storage.js:90 | `find` gives nothing exactly when nothing matches, otherwise the first matching element |
| Seqs.Any | js/storage.js:325 | `some` holds exactly when some element matches |
| Seqs.Filter | js/storage.js:228 | `filter` keeps only matching elements, drops no matching element, and never grows |
| Text.WhitespaceIsListed | js/auth.js:281 | `IsWhitespace`, the class `\s` (and what `trim` strips), matches exactly the 25 ECMAScript WhiteSpace and LineTerminator code points, listed one by one |
| Text.Trim | js/auth.js:147-150 | `trim` returns the middle slice left after removing whitespace at both ends, and that slice has no whitespace at either end |
| Text.TrimEmpty | js/auth.js:196 | a string trims to `''` exactly when it is all whitespace |
| Text.TrimIdempotent | js/auth.js:196 | trimming the already trimmed name again changes nothing |
| Text.ToLower | js/storage.js:255-273 | `toLowerCase` keeps the length, lowers each character on its own, and leaves no ASCII capital |
| Text.Includes | js/storage.js:257-259 | `includes` holds exactly when the needle occurs at some index of the haystack |
| Text.Utf16Length | js/auth.js:201 | `length` counts UTF-16 code units: at least one and at most two per character, exactly one per character when none is beyond U+FFFF, more than the character count otherwise |
| Text.NatToStringValue | css/js/jobs.js:160 | the digits of the count in `${count}`: reading them back gives the count, and there is no leading zero |
| Text.Utf16LengthConcat | js/auth.js:201 | the UTF-16 length of a concatenation is the sum of the lengths |
| Storage.NewUser | js/storage.js:100-104 | the record `createUser` builds: a supplied id beats the fresh one, `createdAt` is always now, every other field is the caller's |
| Storage.NewJob | js/storage.js:183-188 | the record `createJob` builds: a supplied id beats the fresh one, status is always `'active'` and `createdAt` now, every other field is the caller's |
| Storage.NewApplication | js/storage.js:306-311 | the record `createApplication` builds: a supplied id beats the fresh one, status is always `'pending'` and `createdAt` now, every other field is the caller's |
| Storage.Merge | js/storage.js:216 | `{ ...job, ...patch }`: every field the patch carries wins, every field it lacks is the job's |
| Storage.MergeEmpty | js/storage.js:216 | spreading a patch with no fields copies the job |
| Storage.MergeTwice | js/storage.js:216 | applying the same patch twice is applying it once |
| Storage.FindUserByEmail | js/storage.js:88-91 | null exactly when no user has that email; otherwise the first user with exactly that email |
| Storage.ValidateCredentials | js/storage.js:116-119 | null exactly when no user has both this email and this password; otherwise the first user that has both |
| Storage.CreatedUserIsFound | js/storage.js:98-108 | a user created under an email nobody had is what `findUserByEmail` then returns |
| Storage.GetJobById | js/storage.js:199-202 | null exactly when no job has the id; otherwise the first stored job with that id |
| Storage.JobsWithoutId | js/storage.js:226-234 | the jobs left by `deleteJob` are the stored jobs whose id differs; they are as many as before exactly when none had the id, and then they are the same list |
| Storage.DeleteUniqueRemovesOne | js/storage.js:226-234 | with distinct ids, deleting an existing id removes exactly one job |
| Storage.DeleteUndoesCreate | js/storage.js:181-234 | deleting a job just created under a new id gives back the jobs as they were |
| Storage.UpdatedJobIsFound | js/storage.js:210-219 | after a merge that keeps the id, `getJobById` returns the merged job |
| Storage.CreatedJobIsFound | js/storage.js:181-202 | a job created under a new id is what `getJobById` then returns, and it is `'active'` |
| Storage.GetJobsByEmployer | js/storage.js:241-244 | exactly the stored jobs with this `employerId` |
| Storage.SearchJobs | js/storage.js:251-277 | the search result is never longer than the stored list, and each of its jobs is stored and passes every filter that is set |
| Storage.SearchJobsIsOneFilter | js/storage.js:251-277 | the four optional filters in a row are one order-preserving filter by the AND of the filters that are set |
| Storage.SearchJobsMembers | js/storage.js:251-277 | a job is in the search result exactly when it is stored and passes every set filter; the result is never longer than the stored list |
| Storage.SearchWithoutFiltersIsAll | js/storage.js:251-277 | with no filter set the search returns all jobs in stored order |
| Storage.SearchIgnoresCase | js/storage.js:254-276 | query and location strings that lower-case alike give the same result |
| Storage.HasApplied | js/storage.js:323-326 | holds exactly when some application pairs this job id with this applicant id |
| Storage.AppliedAfterCreate | js/storage.js:304-326 | after `createApplication` the pair it names has applied, and the new record is `'pending'` |
| Storage.GetApplicationsByApplicant | js/storage.js:333-336 | exactly the applications with this applicant id |
| Storage.GetApplicationsByJob | js/storage.js:343-346 | exactly the applications with this job id |
| Storage.JobIds | js/storage.js:355 | the ids of the jobs, one per job, in order |
| Storage.GetApplicationsByEmployer | js/storage.js:353-358 | exactly the applications whose job id is the id of some job with this `employerId` |
| Storage.StorageManager.constructor | js/storage.js:71-73 | the store starts with the collections and session the page finds in storage |
| Storage.StorageManager.CreateUser | js/storage.js:98-108 | appends exactly one user carrying every field given, with the given id if any, else the fresh one, and `createdAt` now; nothing else changes |
| Storage.StorageManager.IsAuthenticated | js/storage.js:152-154 | holds exactly when a session record is present |
| Storage.StorageManager.SetCurrentUser | js/storage.js:137-139 | the session becomes this user; the collections are unchanged |
| Storage.StorageManager.Logout | js/storage.js:144-146 | the session is empty afterwards and `isAuthenticated` fails; the collections are unchanged |
| Storage.StorageManager.CreateJob | js/storage.js:181-192 | appends exactly one job with every field given, `'active'` whatever was given, `createdAt` now |
| Storage.StorageManager.UpdateJob | js/storage.js:210-219 | no job with the id: null and no change; otherwise only the first job with the id is replaced by the merge, and it is returned |
| Storage.StorageManager.DeleteJob | js/storage.js:226-234 | removes every job with the id and returns whether there was one; nothing else changes |
| Storage.StorageManager.CreateApplication | js/storage.js:304-315 | appends exactly one `'pending'` application with the given job, applicant, name and email, after which `hasApplied` holds for that pair |
| Storage.StorageManager.InitTestUsers | js/storage.js:367-395 | seeds the users only when there are none; otherwise nothing changes |
| Storage.StorageManager.InitSampleJobs | js/storage.js:400-485 | seeds the jobs only when there are none; otherwise nothing changes |
| Storage.StorageManager.Initialize | js/storage.js:490-494 | both seeds, each under its own emptiness guard |
| Storage.StorageManager.ClearAll | js/storage.js:499-505 | all three collections empty and no session |
| Auth.ValidateEmail | js/auth.js:280-283 | the pattern `^[^\s@]+@[^\s@]+\.[^\s@]+$` as a split at some `@` and some later `.`; an accepted address has at least five characters and starts with neither whitespace nor `@` |
| Auth.ValidEmailHasShape | js/auth.js:280-283 | an address the pattern accepts has no whitespace, exactly one `@` (not first), and a `.` after it that is neither first nor last in the domain |
| Auth.ShapedEmailIsValid | js/auth.js:280-283 | every address of that shape is accepted |
| Auth.ValidateEmailIsShape | js/auth.js:280-283 | the pattern accepts exactly the addresses of that shape |
| Auth.RegistrationError | js/auth.js:196-239 | no error exactly when every check passes (name, employer's company, email pattern, password length, unused email); each error is reported exactly when every check before it passes and its own check fails, so the order is name, company, email, password, duplicate |
| Auth.AcceptedRegistration | js/auth.js:196-239 | a registration that passes has a non-blank name of at least 3, a non-blank company of at least 3 for employers, a well-shaped email, a password of at least 6, and an email no stored user has |
| Auth.CompanyIgnoredForApplicants | js/auth.js:206-214 | for a non-employer the company never changes the outcome of the checks |
| Auth.RegistrationKeepsEmailsUnique | js/auth.js:233-254 | a registration that passes keeps every user's email distinct |
| Auth.RequireAuth | js/auth.js:330-337 | passes exactly when the store holds a session |
| Auth.AuthController.constructor | js/auth.js:8-9 | starts in login mode with the applicant type selected |
| Auth.AuthController.ToggleMode | js/auth.js:40-46 | negates the mode; entering register mode selects the applicant type |
| Auth.AuthController.UpdateUI | js/auth.js:51-90 | keeps the mode; in register mode selects the applicant type |
| Auth.AuthController.SelectUserType | js/auth.js:95-96 | the selected type becomes the given one |
| Auth.AuthController.GetFormData | js/auth.js:141-164 | email, name and company trimmed, the password exactly as typed, the selected type |
| Auth.AuthController.HandleSubmit | js/auth.js:123-136 | login mode logs in: it succeeds exactly when the trimmed email and the password match a user, the session becomes the first such user, otherwise the session is untouched, and the users never change; register mode registers: on the first failing check it reports that check and changes nothing, otherwise it appends exactly the user built from the trimmed form and makes it the session |
| Auth.AuthController.HandleLogin | js/auth.js:169-186 | the session becomes the matching user exactly when the credentials match one; otherwise it is untouched |
| Auth.AuthController.HandleRegister | js/auth.js:191-275 | the first failing check is reported and nothing changes; otherwise exactly one user with the form's fields is appended and becomes the session, and distinct emails stay distinct |
| Auth.AuthController.Logout | js/auth.js:342-348 | empties the session only when confirmed |
| Jobs.ApplyRefusal | css/js/jobs.js:263-287 | applying goes ahead exactly when there is a session, it is not an employer's, it has not applied to this job, and the job exists; otherwise the first failing guard, in the order login, employer, already applied, job missing, is the refusal reported |
| Jobs.ApplyKeepsApplicationsUnique | css/js/jobs.js:277-297 | an accepted application keeps at most one application per job and applicant |
| Jobs.SecondApplyRefused | css/js/jobs.js:277-280 | applying again to the same job is refused as already applied |
| Jobs.ApplyKeepsReferences | css/js/jobs.js:283-297 | applying creates applications only for jobs that exist |
| Jobs.ResultsLabel | css/js/jobs.js:159-160 | the label starts with the count and uses the singular wording exactly when the count is 1, otherwise the plural |
| Jobs.GetTypeBadgeClass | css/js/jobs.js:311-319 | a known type gets its class, any other type `'badge-full'`; the result is always one of the four classes |
| Jobs.GetCategoryLabel | css/js/jobs.js:324-334 | a known category gets its display name, any other category is shown as it is; the label is empty only for the empty category |
| Jobs.Toggled | css/js/jobs.js:245-251 | the id changes membership and no other id does |
| Jobs.ToggleTwice | css/js/jobs.js:245-251 | toggling the same card twice restores the set |
| Jobs.CategoryLinkShowsCategory | css/js/jobs.js:360-378 | a search by a non-empty category alone shows exactly the jobs of that category, in stored order |
| Jobs.SelectedValue | css/js/jobs.js:377 | after `categoryFilter.value = category` the select reports the category exactly when one of its options carries it (or it is empty), and `''` otherwise |
| Jobs.FilteredJobsMatch | css/js/jobs.js:108-119 | the filtered list holds exactly the stored jobs that pass the query, category and type filters that are set; location is never tested |
| Jobs.JobsController.constructor | css/js/jobs.js:26-34 | caches the session, no card expanded, lists only the category's jobs when the URL names a category the select offers, and all jobs otherwise (no category, or one the select does not offer) |
| Jobs.JobsController.LoadJobs | css/js/jobs.js:94-98 | both lists become the stored jobs |
| Jobs.JobsController.FilterJobs | css/js/jobs.js:108-119 | the filtered list becomes the search of the stored jobs by query, category and type, never longer than the stored list; the loaded list is kept |
| Jobs.JobsController.ToggleDetails | css/js/jobs.js:245-254 | the expanded set is toggled at this id; the lists are kept |
| Jobs.JobsController.ApplyDisabled | css/js/jobs.js:168-202 | the apply button is disabled exactly when there is a session that has applied to this job, and then applying would be refused |
| Jobs.JobsController.ApplyToJob | css/js/jobs.js:259-306 | a refused application changes nothing; otherwise exactly one `'pending'` application with the job and the session's id, name and email is appended, the card's button is disabled, and applications stay unique per job and applicant |
| Dashboard.ActiveCount | js/dashboard.js:100 | the active count is at most the employer's job count, and equal exactly when all are active |
| Dashboard.NewThisWeek | js/dashboard.js:204-206 | at most the number of jobs; equal exactly when every job is newer than seven days, zero exactly when none is |
| Dashboard.EmployerRows | js/dashboard.js:146-149 | one card per own job, in order, each with the number of applications to that job |
| Dashboard.ApplicantRows | js/dashboard.js:252-257 | never more cards than applications, each card with the job its application's id finds |
| Dashboard.ApplicantRowsAreFilter | js/dashboard.js:252-257 | the cards show exactly the applications whose job still exists, in stored order |
| Dashboard.ApplicantRowsComplete | js/dashboard.js:252-257 | every application gets a card exactly when none points at a missing job |
| Dashboard.DeletedJobNotListed | js/dashboard.js:252-257 | after a job is deleted no application card refers to it |
| Dashboard.EmployerDashboard | js/dashboard.js:75-93 | the employer panel: one card per own job in stored order, each with the number of applications to that job, and every own job has a card; the stats are the own job count, the applications to any own job (`getApplicationsByEmployer`) and the active count, which is at most the job count |
| Dashboard.ApplicantDashboard | js/dashboard.js:186-197 | the applicant panel: `sent` counts the user's applications, `available` all jobs, `newThisWeek` the jobs of the last seven days; the cards are exactly the user's applications whose job is still stored, in stored order, each with the job found for its id |
| Dashboard.FilterKeepsUniqueIds | js/storage.js:241-244 | an employer's jobs have distinct ids when all jobs do |
| Dashboard.RowCountsAddUp | js/dashboard.js:146-149 | with distinct ids, the job cards' counts add up to the applications to any of those jobs |
| Dashboard.EmployerCountsAddUp | js/dashboard.js:87-93 | with distinct job ids, the job cards' counts add up to the applications card |
| Dashboard.JobFormError | js/dashboard.js:353-361 | the form passes exactly when the title has at least 5 and the description at least 20 characters; a short title is reported first |
| Dashboard.PublishedJobCounts | js/dashboard.js:339-369 | a published job becomes the employer's last job and adds one to the active count |
| Dashboard.DashboardController.constructor | js/dashboard.js:7 | no session cached and nothing loaded |
| Dashboard.DashboardController.Init | js/dashboard.js:12-36 | without a session nothing is loaded; otherwise the session is cached and the employer panel loads exactly for an employer, the applicant panel for anyone else |
| Dashboard.DashboardController.LoadEmployerDashboard | js/dashboard.js:75-93 | the view becomes the employer panel of the session user |
| Dashboard.DashboardController.LoadApplicantDashboard | js/dashboard.js:186-197 | the view becomes the applicant panel of the session user |
| Dashboard.DashboardController.HandleJobSubmit | js/dashboard.js:334-374 | a failing check changes nothing; otherwise exactly one `'active'` job is appended with the session's id, name and company, and the employer panel is reloaded |
| Dashboard.DashboardController.DeleteJob | js/dashboard.js:379-394 | unconfirmed changes nothing; confirmed removes every job with the id, and the panel is reloaded exactly when one was there |

## Left out

- Browser storage and JSON (js/storage.js:23-61). The collections are `seq` fields, and `getUsers`/`saveUsers` and their kin are reads and writes of those fields. Writes never fail in the model. In the source, `createUser`, `createJob` and `createApplication` return the new record whatever `saveX` reports (js/storage.js:105-107, 189-191, 312-314), so the null checks after them (js/auth.js:251-253, js/dashboard.js:370-373, css/js/jobs.js:303-305) cannot fire. The one live failure branch is a failing `setCurrentUser` after registration (js/auth.js:258-261): there the user is already appended, but the page reports that the account could not be created. That branch is not modelled, and neither is a `saveX` that fails silently and leaves the record unsaved.
- `Date.now()` ids, ISO date strings and `toLocaleDateString`. Ids and times are parameters, and times are integers in milliseconds.
- `weekAgo` is `now` minus seven days of 86 400 000 ms. The shift that `setDate` makes across a daylight-saving change is not modelled.
- Text: `toLowerCase` is modelled for ASCII letters only. Other letters are left unchanged.
- Text: strings are sequences of code points. Lengths are counted in UTF-16 units by `Utf16Length`, but lone surrogates are not modelled.
- Rendering: all HTML string building, `escapeHtml`, `formatDate`, `updateAuthLink`, `updateUserInfo`, the modal and the empty states. Only the counts and the membership decisions they show are modelled.
- Browser actions: alerts, `showAlert`/`clearAlert`, the redirects, `setTimeout`, and URL parsing (`checkUrlParameters`).
- Form clearing in `toggleMode` and the form reset in `closeJobModal` are not modelled.
- The page's HTML is not part of this model, so the option values of the category select are the `categoryOptions` parameter. The heading `Empleos en …` that `filterByCategory` writes is rendering and is left out.
- Missing DOM elements are not modelled. The model takes every element as present: `updateUI` returns early when the form title is missing, and a missing filter select makes `filterJobs` read `''`.
- Object lookups: `classes[type]` and `labels[category]` are treated as lookups in a literal table. Keys inherited from `Object.prototype` are left out.
- `company || ''`: the form's company is always a string, so it is passed through as it is.
- Auth.AuthController.HandleRegister: the `typeof StorageManager === 'undefined'` check is left out, because the store is always there in the model.
- Dashboard.DashboardController.Init: the second session check after `RequireAuth` cannot fail in the model, because both read the same session slot.
- The stored records are typed. The model does not cover records in storage with missing fields or the wrong types.
- The literal contents of the seed users and jobs.
- js/main.js (carousel, tabs, animations, pagination) is not part of this model.
