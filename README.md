# Ignitia client: authentication, question papers and dashboards in Dafny

This project models the browser client of Ignitia, a question paper
generator. It covers the following parts:

- **HTTP client** (`api.dfy`, module `Api`). The client keeps two pieces of state: the stored token in `localStorage` and the default `Authorization` header. The header is set at start-up and by `setAuthToken`. A 401 reply removes the stored token.
- **Authentication service** (`auth_service.dfy`). It covers login, logout and profile updates, reading the stored user, and verifying and refreshing the token.
- **Authentication context** (`auth_context.dfy`). This is the session the whole application shares: the user, the loading flags and `isAuthenticated`. It also covers loading the user on mount, register, login, logout and refreshing the headers.
- **Route guard** (`protected_route.dfy`). It decides by role, and a missing role counts as `student`.
- **Login and registration forms** (`login_page.dfy`, `register_page.dfy`, with the e-mail pattern in `email.dfy`). The model covers their validation and their submit handlers.
- **Overview dashboard** (`overview.dfy`). It finds the paper list in whatever reply shape the backend sends, then fills the cards.
- **Insights panel** (`insights.dfy`). It shows difficulty and type charts and the five most used topics.
- **Paper dashboard** (`paper_dashboard.dfy`). It covers statistics, search, delete and export.
- **Question paper list** (`question_papers.dfy`). It covers the fetch, the search filter and the subject filter.
- **Paper creation page** (`create_paper.dfy`). It covers the question distribution, the form schema, the sanitised request that asks for questions, and saving the paper.

Shared definitions:

- `common.dfy` holds the JavaScript string operations the code uses: `trim`, `toLowerCase`, `includes`, `split` and `join`.
- `profiles.dfy` holds user objects and their JSON text.
- `papers.dfy` holds papers and questions.

The model does not run a browser. Each backend reply and each user choice (a confirmation dialog, a field value) is an input. A reply is a `Response`:

- `Ok(body)`;
- `Rejected(status, message)`, a reply with an error status;
- `NoResponse`, a request that failed without a reply.

Every request passes through the client's response interceptor, so a state-changing method states the new browser state as a function of the old one and of the reply.

A string property that is absent, `null` or `""` is modelled as `""` wherever the code only tests it for truthiness.

Where the code and the project's own description disagree, the model follows the code:

- **401 during a session.** A 401 reply removes the stored token but leaves `isAuthenticated` true (`AuthContext.AuthenticatedWithoutToken`, `QuestionPapers.ExpiredSessionDropsToken`).
- **Logout in the context.** The context's logout keeps the stored `user` entry (`AuthContext.LogoutSpec`).
- **Register without a token.** `register` resolves to `undefined` when the reply has no token.
- **Login follow-up.** A 401 on login's follow-up `/me` request removes the token that login has just stored, yet login still reports success (`AuthContext.LoginWithTokenSucceeds`).
- **Delete counter.** On the paper dashboard, a delete lowers `totalPapers` by one however many papers had the id (`PaperDashboard.DeleteCount`).
- **Zero counts.** A distribution row with a count of zero is sent as one question (`CreatePaper.SanitizedCount`). Through the page this is not reached: the count input carries `min="1"` and sits inside the step-one form, so the browser does not submit a zero count.

## Model

| member | source | states |
|---|---|---|
| Api.FailureMessage | client/src/pages/Dashboard/Dashboard.jsx:53-55 | a failure shows the reply's non-empty message, and otherwise the page's fixed text |
| Api.StartupSetsStoredToken | client/src/api/api.js:11-16 | at start the default header carries `Bearer <token>` exactly when a token is stored, and storage is untouched |
| Api.SetAuthTokenIdempotent | client/src/api/api.js:84-92 | `setAuthToken` sets the header for a token and deletes it otherwise; it never touches storage, and a second call with the same token changes nothing |
| Api.RequestCarriesStoredToken | client/src/api/api.js:19-31 | a stored token overrides any header a request carries; without one, the request keeps its own header or the default |
| Api.NoStaleTokenAfterClear | client/src/api/api.js:84-92 | after the header is cleared with no token stored, a request without its own header carries none |
| Api.ResponseTouchesOnlyToken | client/src/api/api.js:60-80 | only a 401 changes anything: it removes the token and keeps every other storage entry and the header |
| Api.Browser.constructor | client/src/api/api.js:11-16 | the loaded client's state is the start-up state for the given storage |
| Api.Browser.SetAuthToken | client/src/api/api.js:84-92 | the new state is `AfterSetAuthToken` of the old one |
| Api.Browser.InterceptResponse | client/src/api/api.js:38-81 | the new state is `AfterResponse` of the old one and the reply |
| Api.Browser.SetItem | client/src/api/authService.js:49-50 | `localStorage.setItem` updates one key and nothing else |
| Api.Browser.RemoveItem | client/src/api/authService.js:59-62 | `localStorage.removeItem` drops one key and nothing else |
| AuthService.IsAuthenticated | client/src/api/authService.js:124-126 | true exactly when a non-empty token is stored |
| AuthService.LoginStoresToken | client/src/api/authService.js:44-54 | a reply with a token stores it and leaves the header alone; any other reply only passes through the interceptor; keys other than token and user keep their presence |
| AuthService.LoginWithoutUserBreaksStoredUser | client/src/api/authService.js:48-51 | as written, a reply with a token but no user makes the stored user unreadable |
| AuthService.LoginCorrectedStoresReadableUser | client/src/api/authService.js:48-51 | corrected, the stored token is the reply's, and the stored user reads back as the reply's user, or as no user |
| AuthService.Login | client/src/api/authService.js:44-54 | the browser state after login is the corrected login's, and the call resolves with the reply's data exactly when the request succeeded |
| AuthService.LogoutClears | client/src/api/authService.js:59-62 | after logout nobody is authenticated and no user is stored; logout is idempotent and keeps every other key |
| AuthService.Logout | client/src/api/authService.js:59-62 | the state after the call is `AfterLogout` of the state before |
| AuthService.UpdateProfileRenamesOnly | client/src/api/authService.js:83-96 | an accepted update replaces only the stored user's name and leaves every other property and the header as they were |
| AuthService.RenamedKeepsOthers | client/src/api/authService.js:89-92 | spreading the stored user and then setting `name` sets it (or drops it when the reply has none) and keeps every other property, each key once |
| AuthService.UpdateProfile | client/src/api/authService.js:83-96 | the state and resolution are those of `AfterUpdateProfile` |
| AuthService.VerifyAndRefresh | client/src/api/authService.js:132-169 | the token counts as valid only when one is stored and `/me` returned a user; a 401 removes it; `refreshToken` answers whether a token is stored, sets the header from it, and is idempotent |
| AuthService.VerifyToken | client/src/api/authService.js:132-149 | the state and answer are those of `AfterVerifyToken` |
| AuthService.RefreshToken | client/src/api/authService.js:155-169 | the state and answer are those of `AfterRefreshToken` |
| Profiles.Get | client/src/api/authService.js:88-92 | a property is absent exactly when its name is not a key, and a present value is the pair's value |
| Profiles.Put | client/src/api/authService.js:88-92 | setting a property keeps the key order and appends a new key at the end |
| Profiles.GetPut | client/src/api/authService.js:88-92 | after a property is set, reading it gives the new value and every other property reads as before |
| Profiles.Remove | client/src/api/authService.js:88-92 | dropping a property removes its key and adds none |
| Profiles.GetRemove | client/src/api/authService.js:88-92 | after a property is dropped, it reads as absent and every other property reads as before |
| Profiles.PutKeepsDistinct | client/src/api/authService.js:88-92 | setting a property keeps the keys distinct |
| Profiles.RemoveKeepsDistinct | client/src/api/authService.js:88-92 | dropping a property keeps the keys distinct |
| Profiles.PutFresh | client/src/api/authService.js:88-92 | a new key is appended after the existing properties |
| Profiles.ParseDistinct | client/src/api/authService.js:112-118 | a parsed object has distinct keys |
| Profiles.ParseStringify | client/src/api/authService.js:112-118 | the JSON text written for a user object, with its quotes, backslashes and control characters escaped, parses back to the same object |
| AuthContext.Mount | client/src/context/AuthContext.jsx:8-14 | the provider starts loading, with no user, and authenticated exactly when a token is stored |
| AuthContext.RefreshAuthHeadersSpec | client/src/context/AuthContext.jsx:17-27 | answers whether a token is stored; if one is, it sets the header from it and marks the session authenticated, and otherwise changes nothing; idempotent |
| AuthContext.NormalizeIdSpec | client/src/context/AuthContext.jsx:57-61 | a user without `id` but with `_id` gets `id` copied from `_id`; no other property changes |
| AuthContext.LoadUserSpec | client/src/context/AuthContext.jsx:30-87 | loading ends; with no token the session is unauthenticated and the browser untouched; a user from `/me` is set with its id normalised; any other outcome removes the token and the header |
| AuthContext.RegisterRole | client/src/context/AuthContext.jsx:90 | the role sent is the caller's, and `student` by default |
| AuthContext.RegisterSpec | client/src/context/AuthContext.jsx:90-120 | a token in the reply is stored and set as the header, and the call succeeds; the session then takes the reply's user and is authenticated, or, with no user, is kept as it was; a reply without a token resolves to `undefined` and changes nothing; a failed request is rethrown, the session is kept and only the response interceptor acts on the browser; `authLoading` ends false throughout |
| AuthContext.LoginWithoutTokenChangesNothing | client/src/context/AuthContext.jsx:160-163 | a reply without a token throws "No token received" and leaves the session as it was |
| AuthContext.LoginWithTokenSucceeds | client/src/context/AuthContext.jsx:130-159 | a reply with a token succeeds and sets the header; the user comes from the reply or from `/me`; a token survives unless `/me` answers 401 |
| AuthContext.AuthLoadingSettles | client/src/context/AuthContext.jsx:117-119 | login and register always end with `authLoading` false and never touch `loading` |
| AuthContext.LogoutSpec | client/src/context/AuthContext.jsx:173-180 | logout removes the token, the header and the user and is idempotent, but keeps the stored `user` entry |
| AuthContext.AuthenticatedWithoutToken | client/src/context/AuthContext.jsx:63-64 | after a user is loaded, a later 401 leaves the session authenticated with no token stored |
| AuthContext.AuthProvider.constructor | client/src/context/AuthContext.jsx:8-14 | the provider's state is `Mount` of the browser state |
| AuthContext.AuthProvider.RefreshAuthHeaders | client/src/context/AuthContext.jsx:17-27 | the new state and answer are `AfterRefreshAuthHeaders` of the old state |
| AuthContext.AuthProvider.LoadUser | client/src/context/AuthContext.jsx:30-87 | the new state is `AfterLoadUser` of the old state and the `/me` reply |
| AuthContext.AuthProvider.Register | client/src/context/AuthContext.jsx:90-120 | the new state and outcome are `AfterRegister` |
| AuthContext.AuthProvider.Login | client/src/context/AuthContext.jsx:123-170 | the new state and outcome are `AfterLogin` of the login reply and the `/me` reply |
| AuthContext.AuthProvider.Logout | client/src/context/AuthContext.jsx:173-180 | the new state is `AfterLogout` |
| ProtectedRoute.Role | client/src/components/ProtectedRoute.jsx:26 | the user's role when it is non-empty, and `student` otherwise |
| ProtectedRoute.Guard | client/src/components/ProtectedRoute.jsx:5-45 | waits exactly while loading; sends an unauthenticated visitor to `/login` with the path; sends a known user whose role is not allowed to `/dashboard` with the access-denied message; admits everyone else |
| ProtectedRoute.CreatePaperAccess | client/src/components/ProtectedRoute.jsx:24-41 | with roles admin and teacher, a signed-in user is admitted exactly when their role is one of them, and a student gets the message naming both |
| ProtectedRoute.MissingRoleIsStudent | client/src/components/ProtectedRoute.jsx:26-29 | a user without a role is admitted exactly when `student` is allowed |
| Email.ValidEmail | client/src/pages/Auth/Login.jsx:49 | true exactly when some non-space run, `@`, a non-space run, `.` and a non-space run occur in the text |
| Email.AddressShape | client/src/pages/Auth/Login.jsx:49 | any `x@y.z` with non-empty, space-free parts passes |
| Email.MatchNeedsAtAndDot | client/src/pages/Auth/Login.jsx:49 | a passing text has an `@` after its first character, a `.`, and at least five characters |
| LoginPage.LoginErrors | client/src/pages/Auth/Login.jsx:44-59 | an e-mail error exactly when the e-mail is empty or fails the pattern, with the matching message; a password error exactly when it is empty |
| LoginPage.LoginValidIff | client/src/pages/Auth/Login.jsx:44-59 | the form is valid exactly when the e-mail is present and well formed and the password is present |
| LoginPage.RedirectTarget | client/src/pages/Auth/Login.jsx:18 | the `from` path when given, and `/dashboard` otherwise |
| LoginPage.LoginErrorMessage | client/src/pages/Auth/Login.jsx:84-86 | the reply's message when there is one, and the fixed text otherwise |
| LoginPage.LoginForm.constructor | client/src/pages/Auth/Login.jsx:9-15 | empty fields, no errors, no message |
| LoginPage.LoginForm.HandleChange | client/src/pages/Auth/Login.jsx:31-42 | sets the field, clears that field's error if it had one, and clears the login error |
| LoginPage.LoginForm.ValidateForm | client/src/pages/Auth/Login.jsx:44-59 | stores `LoginErrors` of the fields and answers whether there are none |
| LoginPage.LoginForm.HandleSubmit | client/src/pages/Auth/Login.jsx:61-88 | an invalid form stops before the request; otherwise the session becomes `AfterLogin`, success navigates to `from`, and failure shows `LoginErrorMessage` |
| RegisterPage.RegisterErrors | client/src/pages/Auth/Register.jsx:38-65 | one error per failing rule (name, e-mail, password length of at least six, matching confirmation), each with its message |
| RegisterPage.RegisterValidIff | client/src/pages/Auth/Register.jsx:38-65 | the form is valid exactly when the name is present, the e-mail is well formed, the password has six or more characters and the confirmation matches |
| RegisterPage.SameEmailRule | client/src/pages/Auth/Register.jsx:45-49 | the e-mail rule and message are the same as on the login form |
| RegisterPage.RegisterForm.constructor | client/src/pages/Auth/Register.jsx:8-16 | empty fields with role `teacher`, no errors |
| RegisterPage.RegisterForm.HandleChange | client/src/pages/Auth/Register.jsx:25-36 | sets the field, clears its error if it had one, and clears the register error |
| RegisterPage.RegisterForm.ValidateForm | client/src/pages/Auth/Register.jsx:38-65 | stores the rule errors of the fields and answers whether there are none |
| RegisterPage.RegisterForm.HandleSubmit | client/src/pages/Auth/Register.jsx:67-83 | an invalid form sends nothing; otherwise it registers as `teacher`, navigates to `/dashboard` unless the request failed, and on failure shows the reply's message or the fixed text |
| Papers.QuestionCountIsAllQuestions | client/src/pages/Dashboard.jsx:155-157 | the question total equals the number of questions across all papers |
| Papers.QuestionCountAppend | client/src/pages/Dashboard.jsx:155-157 | the question total adds up over any split of the papers |
| Papers.Distinct | client/src/pages/Dashboard.jsx:61 | the distinct values have no repeats and are exactly the values given |
| Papers.DistinctInFirstOrder | client/src/pages/Dashboard.jsx:61 | the distinct values keep the order of first occurrence, as a `Set` does |
| Papers.SubjectsSpec | client/src/pages/Dashboard.jsx:61 | the subject list has no repeats and holds exactly the non-empty subjects of the papers |
| Overview.Lookup | client/src/pages/Dashboard.jsx:35-41 | a property read gives `undefined` or a value that some property has |
| Overview.FirstArray | client/src/pages/Dashboard.jsx:49-53 | finds an array exactly when some property holds one, and then the first in property order |
| Overview.ParseQuestionPapers | client/src/pages/Dashboard.jsx:22-69 | the papers are those extracted from the body and the count is their number |
| Overview.ParsedShape | client/src/pages/Dashboard.jsx:22-69 | a falsy body gives no papers, count 0 and no subjects; otherwise the count is the number of papers and the subjects are their distinct non-empty subjects |
| Overview.ExtractionPriority | client/src/pages/Dashboard.jsx:33-58 | a truthy `questionPapers` wins and counts only if it is an array; then `data.questionPapers`; then the body as an array; then the first array property; a scalar gives nothing |
| Overview.PapersComeFromBody | client/src/pages/Dashboard.jsx:33-58 | the papers found are empty or an array present in the body at one of the places looked at |
| Overview.ShapesAgree | client/src/pages/Dashboard.jsx:33-58 | a bare array, an array as the only property under any name, and an array under `data.questionPapers` give the same list |
| Overview.OverviewPage.constructor | client/src/pages/Dashboard.jsx:12-19 | starts loading, with zero counts and empty lists |
| Overview.OverviewPage.FetchDashboardData | client/src/pages/Dashboard.jsx:132-188 | an unauthenticated session makes no request; a reply fills the counts, papers and subjects from the parsed body; a failure keeps them; loading always ends |
| Insights.TruncateText | client/src/components/Dashboard/QuestionPaperInsights.jsx:9-12 | a text up to the limit is kept; a longer one becomes its first `maxLength` characters followed by `...` |
| Insights.ValidPapersKeepQuestions | client/src/components/Dashboard/QuestionPaperInsights.jsx:16-19 | leaving out papers without questions loses no question |
| Insights.PlaceholderIff | client/src/components/Dashboard/QuestionPaperInsights.jsx:16-19 | no paper is kept exactly when every paper has no questions |
| Insights.DifficultyCounts | client/src/components/Dashboard/QuestionPaperInsights.jsx:22-48 | each counter is the number of questions whose lower-cased difficulty is that level |
| Insights.TypeCounts | client/src/components/Dashboard/QuestionPaperInsights.jsx:67-102 | mcq, short and long count their lower-cased types; other counts the rest, including untyped questions |
| Insights.TypeBucketsPartition | client/src/components/Dashboard/QuestionPaperInsights.jsx:76-90 | every question lands in exactly one type bucket |
| Insights.TypeBucketCases | client/src/components/Dashboard/QuestionPaperInsights.jsx:79-87 | a question counts under mcq, short or long exactly when its lower-cased type is that one, and under other when it has no type or another |
| Insights.TypeChartTotal | client/src/components/Dashboard/QuestionPaperInsights.jsx:67-102 | the type chart adds up to the number of questions in all papers |
| Insights.DifficultyWithinTotal | client/src/components/Dashboard/QuestionPaperInsights.jsx:31-38 | the difficulty chart counts each question at most once |
| Insights.Increment | client/src/components/Dashboard/QuestionPaperInsights.jsx:131 | a map update keeps existing keys in place and adds a new key at the end with count 1 |
| Insights.IncrementGet | client/src/components/Dashboard/QuestionPaperInsights.jsx:131 | an update raises only that topic's count, by one |
| Insights.IncrementKeys | client/src/components/Dashboard/QuestionPaperInsights.jsx:131 | setting a key already present keeps the key order; a new key is appended last |
| Insights.IncrementDistinct | client/src/components/Dashboard/QuestionPaperInsights.jsx:131 | a map update never makes a key appear twice |
| Insights.TopicTallyCounts | client/src/components/Dashboard/QuestionPaperInsights.jsx:124-134 | each topic's tally is the number of questions whose trimmed topic it is |
| Insights.TopicTallyDistinct | client/src/components/Dashboard/QuestionPaperInsights.jsx:124-134 | each topic appears once in the tally |
| Insights.TallyTopics | client/src/components/Dashboard/QuestionPaperInsights.jsx:124-134 | the loop builds the topic tally of all questions of the kept papers |
| Insights.Insert | client/src/components/Dashboard/QuestionPaperInsights.jsx:138 | inserting keeps the order by count and adds exactly the one entry |
| Insights.SortByCount | client/src/components/Dashboard/QuestionPaperInsights.jsx:138 | the result is ordered by count, highest first, and is a permutation of the tally |
| Insights.TopTopicsSpec | client/src/components/Dashboard/QuestionPaperInsights.jsx:137-139 | at most five topics, ordered by count, all from the tally; a topic left out counts no more than the fifth kept |
| Insights.ChartOf | client/src/components/Dashboard/QuestionPaperInsights.jsx:142-157 | labels, full labels and counts line up with the top topics, and each label is the truncated topic |
| Insights.Render | client/src/components/Dashboard/QuestionPaperInsights.jsx:14-213 | the placeholder shows exactly when no paper has questions; otherwise the charts hold the difficulty counts, each type bucket's count (`mcq`, `short`, `long`, and every other or missing type), which together add up to all questions, and the top-topic chart |
| PaperDashboard.StatsOf | client/src/pages/Dashboard/Dashboard.jsx:35-50 | the statistics give the number of papers and of questions, and the numbers of attempted and exported papers, each at most the paper count |
| PaperDashboard.SearchThrowsWithoutClass | client/src/pages/Dashboard/Dashboard.jsx:68-72 | as written, one paper without a class whose title and subject miss the term makes the search throw |
| PaperDashboard.SearchThrowsExample | client/src/pages/Dashboard/Dashboard.jsx:68-72 | a paper titled A, subject B, no class, searched for "physics", throws |
| PaperDashboard.SearchResults | client/src/pages/Dashboard/Dashboard.jsx:62-75 | an empty term shows all papers; otherwise the papers matching the term in title, subject or class |
| PaperDashboard.SearchSpec | client/src/pages/Dashboard/Dashboard.jsx:62-75 | a paper is shown exactly when it matches, and the results never outnumber the papers |
| PaperDashboard.SearchAgreesWithClasses | client/src/pages/Dashboard/Dashboard.jsx:68-72 | when every paper has a class, the search as written and the corrected one agree |
| PaperDashboard.Without | client/src/pages/Dashboard/Dashboard.jsx:85-86 | the remaining papers all differ from the id, come from the list, and include every paper with another id |
| PaperDashboard.DeleteCount | client/src/pages/Dashboard/Dashboard.jsx:85-92 | a delete removes exactly the papers with that id; the list shrinks by one exactly when one paper has it |
| PaperDashboard.BumpExports | client/src/pages/Dashboard/Dashboard.jsx:118-131 | the export update keeps the number of papers |
| PaperDashboard.ExportSpec | client/src/pages/Dashboard/Dashboard.jsx:118-131 | only the papers with that id change, and only their export count, which goes up by one |
| PaperDashboard.ExportThenDelete | client/src/pages/Dashboard/Dashboard.jsx:77-131 | deleting after an export gives the same list as deleting alone, and an export keeps the question total |
| PaperDashboard.Dashboard.constructor | client/src/pages/Dashboard/Dashboard.jsx:11-24 | empty lists, zero statistics, no error, loading |
| PaperDashboard.Dashboard.FetchPapers | client/src/pages/Dashboard/Dashboard.jsx:27-57 | a reply with papers fills both lists and the statistics; otherwise the lists are kept and the error, the reply's message or the fixed text, can be shown; loading ends |
| PaperDashboard.FetchWithoutListHidesError | client/src/pages/Dashboard/Dashboard.jsx:31-54 | as written, a 2xx reply without `questionPapers` leaves the lists `undefined`, so the error it sets can never be shown; a rejected request keeps the lists and its error is shown |
| PaperDashboard.Dashboard.HandleSearch | client/src/pages/Dashboard/Dashboard.jsx:62-75 | the shown list becomes the search results and nothing else changes |
| PaperDashboard.Dashboard.HandleDelete | client/src/pages/Dashboard/Dashboard.jsx:77-97 | nothing happens unless confirmed; an accepted delete removes the id from both lists and lowers `totalPapers` by one; a failure sets the error |
| PaperDashboard.Dashboard.HandleExport | client/src/pages/Dashboard/Dashboard.jsx:99-136 | a successful export raises the export count of that paper in both lists; a failure sets the error |
| QuestionPapers.FilteredSpec | client/src/pages/QuestionPapers/QuestionPapers.jsx:76-85 | a paper is listed exactly when it passes the search and the subject filter; the two filters can be applied in either order |
| QuestionPapers.EmptyFiltersShowAll | client/src/pages/QuestionPapers/QuestionPapers.jsx:76-85 | with both filters empty every paper is listed |
| QuestionPapers.QuestionPapersPage.constructor | client/src/pages/QuestionPapers/QuestionPapers.jsx:9-13 | no papers, loading, no error, empty filters |
| QuestionPapers.QuestionPapersPage.FetchQuestionPapers | client/src/pages/QuestionPapers/QuestionPapers.jsx:16-73 | no user: the not-logged-in message; no token: the token message with no request; otherwise the headers are refreshed and the reply passes through the interceptor; a reply fills the list (or empties it without `data.questionPapers`); a 401 gives the session message and other failures the load message, both emptying the list; loading ends |
| QuestionPapers.ExpiredSessionDropsToken | client/src/pages/QuestionPapers/QuestionPapers.jsx:56-57 | a 401 on the fetch removes the token while the session stays authenticated |
| CreatePaper.DefaultMarks | client/src/pages/QuestionPapers/CreatePaper.jsx:58-66 | a type's default marks are its entry in the table, and 1 for an unlisted type; always at least 1 |
| CreatePaper.TotalsAppend | client/src/pages/QuestionPapers/CreatePaper.jsx:129-132 | the question and mark totals add up over any split of the rows |
| CreatePaper.TotalsAround | client/src/pages/QuestionPapers/CreatePaper.jsx:129-132 | the totals are those of the rows before a row, the row itself, and the rows after |
| CreatePaper.RemoveAt | client/src/pages/QuestionPapers/CreatePaper.jsx:111-113 | removing a row in range drops exactly that row and keeps the rest in order; an index out of range removes nothing |
| CreatePaper.AddSpec | client/src/pages/QuestionPapers/CreatePaper.jsx:103-108 | an added row adds one question worth the mcq default marks, and removing it gives the rows back |
| CreatePaper.RemoveSpec | client/src/pages/QuestionPapers/CreatePaper.jsx:111-113 | removing a row takes away exactly its questions and marks |
| CreatePaper.UpdateSpec | client/src/pages/QuestionPapers/CreatePaper.jsx:116-126 | an edit changes only its row and its field, a type change also resets the marks to the type's default, and the totals move by the row's difference |
| CreatePaper.EditsKeepRowsAccepted | client/src/pages/QuestionPapers/CreatePaper.jsx:480-531 | adding, removing, and edits whose values the schema accepts (a listed type or difficulty, a count of at least 0, marks of at least 1) keep every row acceptable |
| CreatePaper.SchemaIssues | client/src/pages/QuestionPapers/CreatePaper.jsx:11-29 | each rule of the schema is violated exactly when its field fails it: title, subject, topic, duration of at least 1, a non-empty distribution, each row, and an optional listed Bloom level |
| CreatePaper.SchemaAcceptsIff | client/src/pages/QuestionPapers/CreatePaper.jsx:11-29 | the form passes exactly when every field satisfies its rule |
| CreatePaper.SanitizeAll | client/src/pages/QuestionPapers/CreatePaper.jsx:360-368 | the sanitised distribution has one sanitised row per row |
| CreatePaper.SanitizeSpec | client/src/pages/QuestionPapers/CreatePaper.jsx:360-368 | a sanitised row has a type, non-zero count and marks, and a listed difficulty; sanitising is idempotent; an accepted row with a non-zero count is unchanged; a zero count becomes 1 |
| CreatePaper.SanitizedCount | client/src/pages/QuestionPapers/CreatePaper.jsx:360-368 | the request asks for one more question per zero-count row than the page shows |
| CreatePaper.BuildRequestDefaults | client/src/pages/QuestionPapers/CreatePaper.jsx:371-383 | the request never has an empty subject, model or Bloom level, or a zero total or duration; it keeps the form's topic, and its subject, total and duration when they are set |
| CreatePaper.BuildRequestKeepsRows | client/src/pages/QuestionPapers/CreatePaper.jsx:360-383 | for a valid form with no zero count, the distribution is sent as shown |
| CreatePaper.ErrorTexts | client/src/pages/QuestionPapers/CreatePaper.jsx:422-426 | one `param: msg` text per validation error, in order |
| CreatePaper.GenerateFailureShown | client/src/pages/QuestionPapers/CreatePaper.jsx:409-431 | as written a failure keeps the error emptied at the start and the handler rejects; corrected it always shows a non-empty message, which lists the field errors for a 400 with errors, and does not reject; both clear `generatingQuestions` |
| CreatePaper.TrimAll | client/src/pages/QuestionPapers/CreatePaper.jsx:299 | each item is the corresponding piece trimmed |
| CreatePaper.TrimKeepsOut | client/src/pages/QuestionPapers/CreatePaper.jsx:299 | trimming adds no character the text did not have |
| CreatePaper.SyllabusItems | client/src/pages/QuestionPapers/CreatePaper.jsx:299 | the syllabus list is empty exactly for an empty field, and each item is trimmed and has no comma |
| CreatePaper.SyllabusRoundTrip | client/src/pages/QuestionPapers/CreatePaper.jsx:299 | trimmed, comma-free items written with commas read back as themselves |
| CreatePaper.MarksTotalAppend | client/src/pages/QuestionPapers/CreatePaper.jsx:301 | the saved total adds up over any split of the questions |
| CreatePaper.MarksTotalAtLeastCount | client/src/pages/QuestionPapers/CreatePaper.jsx:301 | questions worth at least one mark each give a total of at least their number |
| CreatePaper.CreatePaperPage.constructor | client/src/pages/QuestionPapers/CreatePaper.jsx:72-100 | the three default rows, the default form values, step 1, nothing generated, no error |
| CreatePaper.CreatePaperPage.AddQuestionType | client/src/pages/QuestionPapers/CreatePaper.jsx:103-108 | appends the default row and changes nothing else |
| CreatePaper.CreatePaperPage.RemoveQuestionType | client/src/pages/QuestionPapers/CreatePaper.jsx:111-113 | the rows become `RemoveAt` of the old rows, and every other field, the loading flags included, keeps its value |
| CreatePaper.CreatePaperPage.UpdateQuestionType | client/src/pages/QuestionPapers/CreatePaper.jsx:116-126 | the rows become `UpdateAt` of the old rows, and every other field, the loading flags included, keeps its value |
| CreatePaper.CreatePaperPage.SubmitDetails | client/src/pages/QuestionPapers/CreatePaper.jsx:262-280 | only a form the schema accepts is stored, with the default model filled in, and moves to step 2; otherwise nothing changes; the rows, questions, error and loading flags never change |
| CreatePaper.CreatePaperPage.GenerateQuestions | client/src/pages/QuestionPapers/CreatePaper.jsx:339-435 | unauthenticated: login message and `/login`; no topic: topic message; otherwise the headers are refreshed, a missing token fails without a request, and the sanitised request is sent; questions in the reply move to step 3, a reply without them shows the retry text, and a failure ends as the corrected `catch` does; the questions change only on that success, and `loading` never changes |
| CreatePaper.CreatePaperPage.SaveQuestionPaper | client/src/pages/QuestionPapers/CreatePaper.jsx:282-320 | unauthenticated: login message and `/login`; otherwise it sends the form, the syllabus list, the marks total and the questions; success goes to `/question-papers`, failure shows the save message; loading ends; `generatingQuestions`, the rows, the form and the questions keep their values |
| Common.Lower | client/src/pages/QuestionPapers/QuestionPapers.jsx:78 | lower-casing maps each character to its lower-case form and leaves no upper-case ASCII letter |
| Common.Includes | client/src/pages/QuestionPapers/QuestionPapers.jsx:78 | true exactly when the term occurs at some position |
| Common.Trim | client/src/components/Dashboard/QuestionPaperInsights.jsx:130 | the result is the text with its leading and trailing whitespace removed |
| Common.TrimIdempotent | client/src/components/Dashboard/QuestionPaperInsights.jsx:130 | trimming twice is trimming once |
| Common.Split | client/src/pages/QuestionPapers/CreatePaper.jsx:299 | at least one piece, none containing the separator, and joined with it they give the text back |
| Common.SplitJoin | client/src/pages/QuestionPapers/CreatePaper.jsx:299 | pieces without the separator, joined and split again, give the pieces back |
| Common.FilterFilter | client/src/pages/QuestionPapers/QuestionPapers.jsx:76-85 | filtering twice is filtering once by both conditions |

## Left out

- Rendering, styling, animation, charts' drawing, icons, dates (`formatDate`), PDF download links and `console` logging are not modelled; only the data handed to them is.
- The Paper Quality Index of the overview dashboard (`calculatePaperQualityIndex`) is floating-point arithmetic and is not modelled.
- Asynchrony: each handler is one atomic step given the replies to its requests; interleavings of concurrent handlers, effects re-running on dependency changes and `setTimeout` delays are not modelled.
- Reply bodies are modelled only as far as the code reads them. `Overview.Json` has falsy values, other scalars, arrays of papers and objects with ordered properties. Non-paper array elements, duplicate keys, and the order `Object.values` gives integer-like keys are not modelled.
- Strings are sequences of code points, not UTF-16 units.
- Common.Lower: only ASCII letters are mapped; other upper-case letters stay as they are, and mappings that change the length (U+0130 becomes two code points) are not modelled.
- Profiles.Stringify: property values are strings only; numbers, booleans, `null` and nested objects in a user object are not modelled, and `Parse` reads only objects of string values.
- AuthService.AfterLogin: a reply whose `user` is `null` is treated like one without `user`; the source stores the text `null`, which `getStoredUser` reads back as `null`, while the model stores `undefined`.
- `authService.register`, `getCurrentUser` and `changePassword` only forward the request and return the reply; they are not modelled.
- The request interceptor's header is modelled as a value (`Api.OutgoingAuthorization`), not as the mutable per-request config object.
- Navigation state (`{ from: location.pathname }`) is returned as the target path; the router is not modelled.
- `CreatePaper.jsx` `onSubmit` (lines 172-260) is not wired to any form, since the step-one form submits through `handleNextStep`, so it is not modelled.
- `CreatePaper.jsx` `handleChange` (lines 322-336) is not bound to any field of the rendered form and is not modelled.
- CreatePaper.CreatePaperPage.UpdateQuestionType: the source writes into the row object shared with the previous state; the model builds a new row.
- CreatePaper.CreatePaperPage.RemoveQuestionType: the page disables the remove button when one row is left; the model allows removing it, as `removeQuestionType` itself does.
- CreatePaper.BuildRequestDefaults: fractional durations, which `parseInt` truncates, are not modelled; a duration is an integer or absent.
- CreatePaper.DefaultMarks: keys inherited from `Object.prototype` (such as `constructor`) are not looked up.
- Insights.SortByCount: stability of `Array.prototype.sort` among equal counts is not stated; the contract gives order and permutation only.
- PaperDashboard.Dashboard.FetchPapers: a 2xx reply without `questionPapers` sets both lists to `undefined` in the source, so the next render throws (row 4 of the findings); the method models the corrected handler, which keeps the lists and shows the error.
- LoginPage.LoginForm.HandleSubmit: models the handler once the browser has fired the submit event. The form does not set `noValidate`, and the e-mail input is `type="email"` (Login.jsx:139, 148), so the browser refuses some texts `Email.ValidEmail` accepts (such as `ü@x.de`) before the handler runs.
- RegisterPage.RegisterForm.HandleSubmit: models the handler once the browser has fired the submit event. The e-mail input is `type="email"` (Register.jsx:123, 154), and the browser's own check of it is not modelled.
- CreatePaper.CreatePaperPage.SubmitDetails: models the handler once the browser has fired the submit event. The browser's range checks come first and are not modelled: count 1-25, marks 1-20, duration 10-300 (CreatePaper.jsx:498-499, 527-528, 685-686). For example, a duration of 5 passes the schema but the page stays on step 1.
- AuthContext.AuthProvider.Login: `authLoading` is true only while the request is pending, which one atomic step cannot observe.

## Findings

| source | as written | input that shows it | evidently intended | confidence | as-written member | corrected member |
|---|---|---|---|---|---|---|
| client/src/api/authService.js:48-51 | a reply with a token stores `JSON.stringify(response.data.user)` even when there is no user, writing the text `undefined`, which `getStoredUser` cannot parse | a login reply `{ token: "t" }` with no `user` property (a `user: null` is not part of this claim) | store the user when the reply has one, and otherwise leave no stored user, so that a user from an earlier session is not read back | not executed | AuthService.LoginWithoutUserBreaksStoredUser | AuthService.LoginCorrectedStoresReadableUser |
| client/src/pages/Dashboard/Dashboard.jsx:68-72 | the search calls `paper.class.toLowerCase()` although `class` is optional, so a paper without a class whose title and subject miss the term throws a TypeError | a paper titled "A", subject "B", no class, searched for "physics" | treat a missing class as not matching | not executed | PaperDashboard.SearchThrowsExample | PaperDashboard.SearchResults |
| client/src/pages/QuestionPapers/CreatePaper.jsx:409-419 | the `catch` of `generateQuestions` reads `validatedQuestionDistribution`, a `const` of the `try` block, so it throws a ReferenceError before setting any message, and the error cleared at the start stays empty | any failed generation, such as a 400 reply or a missing stored token | show the validation errors, the reply's message or the fixed text | not executed | CreatePaper.GenerateFailureShown | CreatePaper.CreatePaperPage.GenerateQuestions |
| client/src/pages/Dashboard/Dashboard.jsx:31-33 | `fetchPapers` stores `response.data.questionPapers` in both lists before anything can throw, so a reply without it leaves them `undefined`; the `catch` sets an error, but the next render reads `filteredPapers.length` (line 213) and throws, so the error is never shown | a 2xx reply with body `{}` | keep the lists and show the error | not executed | PaperDashboard.FetchWithoutListHidesError | PaperDashboard.Dashboard.FetchPapers |
