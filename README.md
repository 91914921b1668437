# Ngeni website — a Dafny model of its rules

Ngeni's website is a Next.js application: a bilingual (French and English) landing site, a
client dashboard, and a tRPC API over a Prisma database. This project models the
deterministic rules underneath the markup and proves what they promise:

- **The API.** The tRPC procedure gates, the Zod input schemas and the five routers
  (projects, tasks, leads, users, auth). The database is a class `Store.Db` holding four
  maps from id to row. Each procedure is a method that runs in the order the code does:
  gate, input schema, existence, ownership, then the write or the typed error
  (`UNAUTHORIZED`, `FORBIDDEN`, `NOT_FOUND`, `CONFLICT`, `BAD_REQUEST`).
- **Sign-in.** The Credentials `authorize` chain, the `jwt` and `session` callbacks, and
  password hashing.
- **Routing.** The locale table, the request locale fallback, the middleware's path matcher and bypass,
  locale stripping and redirects, and the sitemap.
- **Client logic.**
  - The chatbot's conversation state machine.
  - The task board's columns and mutations.
  - The project card's derived values, the simulated invoices and the contact form.
  - The service catalogue, sidebar highlighting, initials, the theme toggle and
    `truncate`.

Library checks the code delegates (Zod's email, cuid and url tests, bcrypt's hash and
compare) are fields of a record `Common.Lib` passed to every member that needs them.
Nothing is assumed about them beyond what a lemma states in its `requires`. Clock readings
(`Date.now()`, `new Date()`), fresh ids and the environment variable `NEXTAUTH_URL` are
parameters.

Zod runs string checks in declaration order. In every schema here `.min`/`.max` come
before `.trim()`, so the length bounds apply to the raw string and the stored value is the
trimmed one. The email is checked raw and stored lower-cased and trimmed.

The middleware reads the session cookie as `plain ?? secure`. A plain cookie that is
present but empty therefore hides a non-empty secure cookie, and the request counts as
signed out (`Middleware.EmptyPlainCookieHidesSecure`). The model follows this code.

## Model

| member | source | states |
|---|---|---|
| Trpc.AuthGate | src/server/api/trpc.ts:54-71 | rejects with UNAUTHORIZED exactly when the session has no non-empty user id; otherwise forwards the request's own session and user unchanged |
| Trpc.AdminGate | src/server/api/trpc.ts:77-93 | rejects with FORBIDDEN exactly when the user id is missing or the role is not ADMIN (one test for both); otherwise forwards the same session and user |
| Trpc.PublicNeverRejects | src/server/api/trpc.ts:51 | a public procedure performs no check |
| Trpc.AdminPassImpliesAuthPass | src/server/api/trpc.ts:54-96 | whoever passes the admin gate passes the protected gate as the same caller, and some caller passes only the protected one |
| Trpc.AnonymousCaller | src/server/api/trpc.ts:74-96 | an anonymous caller gets UNAUTHORIZED from a protected procedure but FORBIDDEN from an admin procedure, since the admin procedure does not chain the auth gate |
| Trpc.Flatten | src/server/api/trpc.ts:37 | the flattened Zod error has a form-level error iff some issue has the empty path, and a field error exactly for each non-empty path |
| Trpc.FormatError | src/server/api/trpc.ts:30-40 | `zodError` is the flattened cause iff the cause is a Zod error and null otherwise; message, code, HTTP status and path are kept |
| ProjectSchema.ParseProjectStatus | src/lib/validations/project.schema.ts:7-12 | accepts exactly the names of the four project statuses, each as its own value |
| ProjectSchema.ParseTaskStatus | src/lib/validations/project.schema.ts:14 | accepts exactly the names of the three task statuses |
| ProjectSchema.ParsePriority | src/lib/validations/project.schema.ts:16 | accepts exactly the names of the four priorities |
| ProjectSchema.EnumSizes | src/lib/validations/project.schema.ts:7-16 | the enums have exactly 4, 3 and 4 distinct names |
| ProjectSchema.ParseCuid | src/server/api/routers/projects.ts:47 | a by-id input passes iff the id is present and a cuid; otherwise BAD_REQUEST naming that one path |
| ProjectSchema.ParseProjectCreate | src/lib/validations/project.schema.ts:19-31 | accepts iff no issue: a raw title of 3..200, a description of at most 2000, a positive budget when given, a cuid client; stores trimmed text; the status defaults to IN_PROGRESS |
| ProjectSchema.ParseProjectUpdate | src/lib/validations/project.schema.ts:33-35 | a required id plus every create field optional; a given field is parsed as at creation, an absent one stays absent |
| ProjectSchema.ProjectUpdateIsPartial | src/lib/validations/project.schema.ts:33-35 | whatever the create schema accepts the update schema accepts with any cuid id; an id alone is accepted; no id is never accepted |
| ProjectSchema.ParseTaskCreate | src/lib/validations/project.schema.ts:38-49 | accepts iff a raw title of 3..300, a description of at most 2000 and a cuid project id; status defaults to TODO and priority to MEDIUM |
| ProjectSchema.ParseTaskUpdate | src/lib/validations/project.schema.ts:51-53 | the task create schema made partial, with a required id |
| ProjectSchema.TaskUpdateIsPartial | src/lib/validations/project.schema.ts:51-53 | whatever the task create schema accepts the update schema accepts with an id; an id alone is accepted; no id never is |
| LeadSchema.ParseSource | src/lib/validations/lead.schema.ts:43 | accepts exactly "chatbot", "contact_form" and "landing", each as its own source |
| LeadSchema.ServiceKeysDistinct | src/lib/validations/lead.schema.ts:7-18 | ten pairwise-distinct service keys |
| LeadSchema.ParseLead | src/lib/validations/lead.schema.ts:20-44 | accepts iff no issue: a raw name of 2..200, an email, a phone matching the rule, a company of at most 200, a message of 20..5000, a known service when given; stores trimmed name, company and message and the normalised email; the source defaults to contact_form |
| LeadSchema.PhoneRule | src/lib/validations/lead.schema.ts:31-35 | a phone is refused exactly when it is present, non-empty and not 7..20 characters of `+`, digits, white space, `-`, `(` and `)` |
| LeadSchema.PhoneExamples | src/lib/validations/lead.schema.ts:31-35 | an international number passes; a 6-character one and one with letters do not; the empty string is accepted only through the `or("")` |
| AuthSchema.ParseLogin | src/lib/validations/auth.schema.ts:7-16 | accepts iff the email passes the email check and the password has at least 8 characters, with no composition rule; the email is lower-cased and trimmed |
| AuthSchema.ParseRegister | src/lib/validations/auth.schema.ts:18-42 | accepts iff no issue: a raw name of 2..100, an email, a password of 8 characters with a lower-case letter, an upper-case letter and a digit before its first line break, and a matching confirmation |
| AuthSchema.FirstLine | src/lib/validations/auth.schema.ts:33-36 | the longest prefix without a line terminator: what `.` in the anchored look-aheads can scan |
| AuthSchema.SingleLineRule | src/lib/validations/auth.schema.ts:31-36 | on a password without line breaks the rule asks for 8 characters and one lower-case letter, one upper-case letter and one digit anywhere |
| AuthSchema.LineBreakHidesClasses | src/lib/validations/auth.schema.ts:33-36 | "A1\nabcdefg" is refused because its lower-case letters come after the line break, and "abcdefA1" is accepted |
| AuthSchema.MismatchReportedOnConfirm | src/lib/validations/auth.schema.ts:39-42 | a mismatched confirmation always fails, reported on `confirmPassword`, whatever else fails |
| AuthSchema.RegisterPasswordStricterThanLogin | src/lib/validations/auth.schema.ts:13-36 | every registration password is a valid login password, and "password" is one the login accepts and registration refuses |
| Store.UserByEmail | src/lib/auth.ts:61-63 | `findUnique` by the unique email: the one row with that email, or none exactly when no row has it |
| Store.TasksOutside | src/server/api/routers/projects.ts:113-127 | exactly the tasks whose project is not among the given ones, unchanged |
| Store.ProjectsOf | src/server/api/routers/users.ts:145-158 | exactly the ids of the projects whose client is the given user |
| Listing.Select | src/server/api/routers/projects.ts:28 | reads the matching rows in descending key order by repeated insertion; the result names each matching row once and no other |
| Listing.SelectRows | src/server/api/routers/projects.ts:38 | `findMany` with `orderBy desc`: every matching row exactly once, no other row, highest key first |
| AuthLib.HashPassword | src/lib/auth.ts:114-116 | the bcrypt hash of the password at cost 12 |
| AuthLib.Authorize | src/lib/auth.ts:53-86 | null exactly when the credentials fail the login schema, no user has the normalised email, the user has no hash, or the password does not match; otherwise the stored user's id, email, name, image and role |
| AuthLib.Token.Jwt | src/lib/auth.ts:92-98 | with a user the token gets the user's id and role, CLIENT when the role is absent; without one it is unchanged |
| AuthLib.SessionBox.FromToken | src/lib/auth.ts:101-107 | when the session has a user, its id and role are copied from the token and nothing else changes; without one nothing changes |
| AuthLib.SignInCallbacks | src/lib/auth.ts:92-107 | after a sign-in through both callbacks the session user is `SignedIn` of the user, and a later request without a user gets the same id and role from the token |
| AuthLib.SignInReachesGates | src/lib/auth.ts:53-107 | after a successful sign-in through both callbacks the caller passes the protected gate as that user, and the admin gate exactly when the stored role is ADMIN |
| AuthLib.RegisteredUserCanSignIn | src/server/api/routers/auth.ts:30-38 | a new account's row lets `authorize` sign in with the same email and password, as a CLIENT, given that bcrypt verifies its own non-empty hashes |
| Middleware.SessionToken | src/middleware.ts:37-39 | the plain cookie whenever it is present, even empty; the secure cookie otherwise |
| Middleware.StripLocale | src/middleware.ts:44 | removes a leading "/fr" or "/en" with no segment boundary, and turns an empty result into "/"; never empty |
| Middleware.Run | src/middleware.ts:74-79 | the middleware runs exactly on the paths `config.matcher` accepts, and answers there as `Handle` does |
| Middleware.BypassExamples | src/middleware.ts:24-31 | the in-code bypass skips API routes, Next.js assets and dotted files, but not a localized page or a bare "/api" |
| Middleware.MatcherSkipsApi | src/middleware.ts:24-31 | "/api" and "/apidocs" escape the middleware through the matcher although the in-code bypass would not skip them |
| Middleware.MatcherDotIsAny | src/middleware.ts:77 | the dots of the excluded names match any character: "/favicon-ico" is excluded too |
| Middleware.LocalizedIsMatched | src/middleware.ts:74-79 | every path under "/fr" or "/en" passes the matcher |
| Middleware.Handle | src/middleware.ts:21-72 | bypass iff an API, asset or dotted path; a redirect to the login page with the original path as callback iff protected and signed out; a redirect to the dashboard iff a sign-in page and signed in; the locale router's response otherwise |
| Middleware.ProtectedIffDashboard | src/middleware.ts:6-13 | a path is protected iff it begins with "/dashboard" or "/tableau-de-bord", so "/dashboardx" is protected too |
| Middleware.AuthIffSignIn | src/middleware.ts:16 | a path is a sign-in path iff it begins with one of the four sign-in roots |
| Middleware.ProtectedAndAuthDisjoint | src/middleware.ts:47-64 | no path is both protected and a sign-in path, so the order of the two checks does not matter |
| Middleware.StripLocalizedUrl | src/middleware.ts:44 | a localized URL loses exactly its locale prefix |
| Middleware.RoutesAreLocalized | src/middleware.ts:6-16 | the two lists are exactly the routing table's dashboard and sign-in paths, English then French |
| Middleware.RedirectTargetsAreLocalized | src/middleware.ts:52-67 | the redirect targets are the table's login and dashboard URLs, and Auth.js's sign-in page is the French login URL |
| Middleware.NoDotInTable | src/i18n/routing.ts:15-57 | no path of the table, French or English, contains a dot, so none is taken for a file and bypassed |
| Middleware.ClassifyPath | src/i18n/routing.ts:15-57 | a table path is protected iff it is a dashboard entry and a sign-in path iff it is a login or register entry, in both locales |
| Middleware.UrlReachesChecks | src/middleware.ts:24-79 | the URL of a table entry passes the matcher, is not bypassed, and the checks see the entry's own path |
| Middleware.NoRedirectLoop | src/middleware.ts:47-79 | the target of a redirect, requested with the same cookies, passes the matcher and gets the locale router's response |
| Middleware.GuardsMatchRouting | src/middleware.ts:47-71 | a table page is sent to sign-in iff it is a dashboard page and the caller is signed out, to the dashboard iff it is a sign-in page and the caller is signed in, and served otherwise |
| Middleware.EmptyPlainCookieHidesSecure | src/middleware.ts:37-41 | with an empty plain cookie a protected path redirects to sign-in whatever the secure cookie holds |
| I18n.ParseLocale | src/i18n/routing.ts:6 | accepts exactly "fr" and "en" |
| I18n.Find | src/i18n/routing.ts:15-57 | finds a page's path in a locale iff the table lists the page, and the path is that entry's |
| I18n.FindInternal | src/i18n/routing.ts:15-57 | finds a page for a localized path iff some entry has that path in that locale |
| I18n.FindRoundTrip | src/i18n/routing.ts:15-57 | in an unambiguous table, page to path and path to page are inverse |
| I18n.FindAt | src/i18n/routing.ts:15-57 | in an unambiguous table an entry's page is found at that entry |
| I18n.PathnamesUnambiguous | src/i18n/routing.ts:15-57 | no page is listed twice and no two pages share a path in either locale |
| I18n.Localize | src/i18n/routing.ts:15-57 | a path exactly for the pages the table lists, and routing that path back gives the page |
| I18n.Delocalize | src/i18n/routing.ts:15-57 | a page exactly for the paths the table lists in that locale, and localizing the page gives the path back |
| I18n.LocalizeAt | src/i18n/routing.ts:15-57 | each entry gives its own page's path |
| I18n.LocalizeRoundTrip | src/i18n/routing.ts:15-57 | localizing a page and routing its path back give the page again, in both locales |
| I18n.RequestLocale | src/i18n/request.ts:6-10 | the requested locale when supported, the default "fr" when missing or unknown; always one of the two locales |
| I18n.MessagesFile | src/i18n/request.ts:12-19 | the French catalogue for "fr", the English one for "en" |
| ProjectsRouter.GetAll | src/server/api/routers/projects.ts:19-40 | UNAUTHORIZED without a user; otherwise every project an admin or the project's client may read, each once, none other, most recently updated first; each with exactly its own tasks' id, status and priority, and with its client's id, name and email exactly when the caller is an admin |
| ProjectsRouter.TaskSummaries | src/server/api/routers/projects.ts:26 | one summary per task of the project and no other |
| ProjectsRouter.ProjectTasks | src/server/api/routers/projects.ts:55 | exactly the tasks whose project is the given one |
| ProjectsRouter.GetById | src/server/api/routers/projects.ts:46-72 | NOT_FOUND for an unknown id before FORBIDDEN for a non-admin who is not the client; otherwise the row itself with its client's id, name and email and exactly its tasks |
| ProjectsRouter.Create | src/server/api/routers/projects.ts:77-84 | admins only; a parsed project is added under the new id and nothing else changes, answered with its client's id, name and email; a client id naming no user is the database's error and changes nothing |
| ProjectsRouter.PatchProperties | src/server/api/routers/projects.ts:89-108 | a patch keeps the id and creation time, applying it twice is applying it once, and an empty patch only touches `updatedAt` |
| ProjectsRouter.Update | src/server/api/routers/projects.ts:89-108 | admins only; NOT_FOUND for an unknown id; otherwise only the given fields of that row change; a client id naming no user is the database's error, and the update succeeds exactly when it is an admin's, the input parses, the project exists and any given client exists; the answer carries the updated row's client id, name and email |
| ProjectsRouter.Delete | src/server/api/routers/projects.ts:113-127 | admins only; NOT_FOUND for an unknown id; otherwise the project goes with its tasks, or, exactly when the action is restrict and tasks remain, the database's error |
| ProjectsRouter.TasksWith | src/server/api/routers/projects.ts:150-157 | exactly the project's tasks, with the given status when one is given |
| ProjectsRouter.CountsPartition | src/server/api/routers/projects.ts:150-157 | total equals todo plus in progress plus done, since a task has exactly one of three statuses |
| ProjectsRouter.GetStats | src/server/api/routers/projects.ts:132-158 | UNAUTHORIZED without a session, BAD_REQUEST for a bad id, NOT_FOUND for an unknown project, FORBIDDEN for a client who does not own it; otherwise the project's task count and its TODO, IN_PROGRESS and DONE counts, which add up to the total |
| TasksRouter.GetByProject | src/server/api/routers/tasks.ts:19-53 | NOT_FOUND for an unknown project before FORBIDDEN for a caller who may not read it; otherwise exactly the project's tasks, with the given status when one is given |
| TasksRouter.Create | src/server/api/routers/tasks.ts:55-74 | admins only; NOT_FOUND when the project is missing; otherwise exactly one task is added and the others are unchanged |
| TasksRouter.Update | src/server/api/routers/tasks.ts:76-113 | NOT_FOUND for an unknown task; an admin applies every given field; anyone else must be the project's client (FORBIDDEN) and give a status (BAD_REQUEST), and then only the status changes; an admin's update of an existing task succeeds exactly when any given project exists, and is the database's error otherwise |
| TasksRouter.PatchProperties | src/server/api/routers/tasks.ts:76-113 | a patch keeps the task's id and creation time, applying it twice is applying it once, and an empty patch only touches `updatedAt` |
| TasksRouter.Delete | src/server/api/routers/tasks.ts:115-130 | admins only; NOT_FOUND for an unknown task; otherwise exactly that task is removed |
| LeadsRouter.Create | src/server/api/routers/leads.ts:15-55 | public; a schema failure stores nothing; a lead with the same email in the last 24 hours makes it succeed without storing; otherwise exactly one lead is stored and the caller gets only its id, name, email, service and creation time |
| LeadsRouter.SecondSubmissionAbsorbed | src/server/api/routers/leads.ts:20-33 | once a lead is stored, the same email is absorbed for the next 24 hours |
| LeadsRouter.ParseListQuery | src/server/api/routers/leads.ts:60-70 | a limit of 1..100 defaulting to 50, an optional cuid cursor and the two filters |
| LeadsRouter.Page | src/server/api/routers/leads.ts:72-86 | at most `limit` leads of the listing, exactly `limit` when a next cursor is handed out |
| LeadsRouter.PageAt | src/server/api/routers/leads.ts:72-86 | a page holds at most `limit` leads from the start position, and `nextCursor` is set iff more remain, to the id of the first lead left out |
| LeadsRouter.IndexOfId | src/server/api/routers/leads.ts:72-80 | the position of the first lead with the cursor's id, or none when no lead has it |
| LeadsRouter.CursorResumes | src/server/api/routers/leads.ts:72-86 | the cursor a page hands out brings exactly the following page |
| LeadsRouter.NextStartsLater | src/server/api/routers/leads.ts:72-86 | a handed-out cursor resumes strictly further down the listing, so following cursors ends |
| LeadsRouter.WalkStep | src/server/api/routers/leads.ts:72-86 | resuming at a position gives the rest of the list when it fits one page, and otherwise one page followed by the walk from the cursor it hands out |
| LeadsRouter.WalkFrom | src/server/api/routers/leads.ts:72-86 | following the cursors from any lead's cursor lists that lead and every one after it, in order |
| LeadsRouter.WalkReturnsAll | src/server/api/routers/leads.ts:72-86 | following every `nextCursor` from the first page lists the whole listing, in order, each lead once |
| LeadsRouter.StrictlySortedUnique | src/server/api/routers/leads.ts:79 | two lists of the same leads, both strictly newest first, are equal |
| LeadsRouter.LeadListUnique | src/server/api/routers/leads.ts:76-80 | with pairwise-distinct creation times the listing `getAll` pages through is unique |
| LeadsRouter.GetAll | src/server/api/routers/leads.ts:60-89 | admins only; the first page of the matching leads, newest first, from the cursor when one is given |
| LeadsRouter.GetById | src/server/api/routers/leads.ts:94-104 | admins only; NOT_FOUND for an unknown id; otherwise the row |
| LeadsRouter.Delete | src/server/api/routers/leads.ts:109-114 | admins only; no existence check, so an unknown id is the database's error; otherwise exactly that lead is removed |
| LeadsRouter.ServiceGroups | src/server/api/routers/leads.ts:122 | one group per service value present, with its count; the group of leads without a service counts 0 |
| LeadsRouter.SourceGroups | src/server/api/routers/leads.ts:123 | one group per source present, counting its leads |
| LeadsRouter.SourceGroupsPartition | src/server/api/routers/leads.ts:119-130 | the source groups add up to the total |
| LeadsRouter.GetStats | src/server/api/routers/leads.ts:119-130 | admins only; the total, both groupings, and the number of leads of the last seven days, which never exceeds the total |
| UsersRouter.ParseRole | src/server/api/routers/users.ts:13 | accepts exactly "ADMIN", "CLIENT" and "GUEST" |
| UsersRouter.GetAll | src/server/api/routers/users.ts:10-41 | admins only; exactly the users matching the role and the search text in the name or email, each once with its project count, newest first |
| UsersRouter.GetById | src/server/api/routers/users.ts:46-70 | admins only; NOT_FOUND for an unknown id; otherwise the user's public fields and exactly their projects, each once, most recently updated first, each with the statuses of its tasks |
| UsersRouter.StatusesOf | src/server/api/routers/users.ts:59 | each status occurs as often as the project has tasks in it, and there is one status per task |
| UsersRouter.ParseCreate | src/server/api/routers/users.ts:78-81 | a raw name of 2..100, an email, a password of at least 8; the role defaults to CLIENT |
| UsersRouter.Create | src/server/api/routers/users.ts:75-114 | admins only; CONFLICT when the normalised email is taken, storing nothing; otherwise one user with the requested role and the password's hash, never the password; the answer is the selected id, email, name, role and creation time |
| UsersRouter.UpdateRole | src/server/api/routers/users.ts:119-140 | admins only; BAD_REQUEST listing `id` and/or `role` for a bad input, then BAD_REQUEST for the caller's own id; otherwise only that user's role changes and the answer is its id, email, name and role; an unknown id is the database's error |
| UsersRouter.Delete | src/server/api/routers/users.ts:145-158 | admins only; BAD_REQUEST for the caller's own id; otherwise the user goes with their projects and tasks; the database's error exactly for an unknown id, or under restrict while projects remain |
| AuthRouter.Register | src/server/api/routers/auth.ts:12-49 | CONFLICT when the normalised email is taken, creating nothing; otherwise one CLIENT account with the password's hash, whatever the input, answered with its id, email, name, role and creation time |
| AuthRouter.Me | src/server/api/routers/auth.ts:54-73 | the caller's own row with its project count, or NOT_FOUND when that row is gone |
| AuthRouter.UpdateProfile | src/server/api/routers/auth.ts:78-91 | only the caller's own row changes, and only its name (trimmed) and image when given; the answer is its id, email, name, image and role |
| Utils.SliceEnd | src/lib/utils.ts:38 | the end index of `slice(0, n)`: `n` capped at the length, or counted from the end when negative |
| Utils.Truncate | src/lib/utils.ts:37-39 | the result is at most one character longer than the input; what it holds is stated by the four lemmas below |
| Utils.TruncateShort | src/lib/utils.ts:38 | a string no longer than `n` is returned unchanged |
| Utils.TruncateLong | src/lib/utils.ts:38 | for `n >= 0` a long string keeps exactly its first `n` characters, then the ellipsis, `n + 1` in all |
| Utils.TruncateBounds | src/lib/utils.ts:38 | the result is a prefix of the input, possibly followed by the ellipsis |
| Utils.TruncateIdempotent | src/lib/utils.ts:38 | for `n >= 0` truncating twice changes nothing more |
| Utils.NegativeLengthShrinks | src/lib/utils.ts:38 | for a negative length truncation is not idempotent |
| Sitemap.BaseUrl | src/app/sitemap.ts:8 | the configured URL, or "http://localhost:3000" without one |
| Sitemap.Build | src/app/sitemap.ts:24-40 | two entries per route, the French one immediately before the English one, each the base URL plus that locale's path with the route's priority and change frequency |
| Sitemap.Generate | src/app/sitemap.ts:21-43 | the built list over the public routes, every entry stamped with the date passed in; the source reads the clock once per entry, and the model takes those readings to be one |
| Sitemap.PublicRoutesArePublic | src/app/sitemap.ts:12-19 | every indexed path is served by the locale router whatever the cookies |
| Numeric.RoundDiv | src/components/dashboard/InvoiceList.tsx:45 | `Math.round` of a non-negative ratio: the nearest integer, halves up |
| Numeric.CeilDiv | src/components/dashboard/ProjectCard.tsx:75 | `Math.ceil` of a ratio of either sign: the least integer not below it |
| Numeric.RoundDivMonotone | src/components/dashboard/ProjectCard.tsx:99 | rounding a larger ratio never gives a smaller integer |
| Numeric.Percent | src/components/landing/ChatBot.tsx:386 | 0 without tasks, otherwise `done / total` as a rounded percentage |
| Numeric.PercentBounds | src/components/dashboard/ProjectCard.tsx:97-99 | with done at most total the percentage lies in 0..100, is 0 with nothing done and 100 with everything done |
| Numeric.NearlyDoneShowsFull | src/components/dashboard/ProjectCard.tsx:99 | 100 % does not mean everything is done: 199 of 200 rounds to 100 |
| ProjectCard.DaysLeft | src/components/dashboard/ProjectCard.tsx:72-76 | none iff there is no end date; otherwise the whole days to the end date, rounded up |
| ProjectCard.DaysLeftSign | src/components/dashboard/ProjectCard.tsx:72-76 | the count is at most zero iff the end date is reached, and negative iff a full day has passed since |
| ProjectCard.FirstOpen | src/components/dashboard/ProjectCard.tsx:80-83 | the first priority of the order that an open task carries, none iff no priority of the order has one |
| ProjectCard.OrderRanks | src/components/dashboard/ProjectCard.tsx:79 | the search order lists every priority once, most urgent first |
| ProjectCard.OrderCovers | src/components/dashboard/ProjectCard.tsx:79-83 | searching the whole order misses no open priority |
| ProjectCard.TopPriority | src/components/dashboard/ProjectCard.tsx:78-84 | the most urgent priority among the tasks not DONE, none iff there is no such task |
| ProjectCard.FirstOpenDependsOnOpenOnly | src/components/dashboard/ProjectCard.tsx:81 | two task lists with the same open priorities give the same result |
| ProjectCard.DoneTaskIgnored | src/components/dashboard/ProjectCard.tsx:81 | adding a DONE task never changes the priority shown |
| ProjectCard.DoneCount | src/components/dashboard/ProjectCard.tsx:98 | at most the task count; equal to it iff every task is DONE, zero iff none is |
| ProjectCard.ProgressBounds | src/components/dashboard/ProjectCard.tsx:97-99 | at most 100, 0 when no task is done, 100 when every task is |
| ProjectCard.StatusStyle | src/components/dashboard/ProjectCard.tsx:96 | a known status gets its own style, an unknown one the IN_PROGRESS style |
| ProjectCard.RemainingBadge | src/components/dashboard/ProjectCard.tsx:193-211 | shown iff the project has a countdown and is not COMPLETED; overdue with the absolute day count when negative |
| ProjectCard.BadgeTone | src/components/dashboard/ProjectCard.tsx:193-211 | red once a full day has passed since the end date, amber from then until seven days before it, grey earlier |
| ProjectCard.CompletedHasNoBadge | src/components/dashboard/ProjectCard.tsx:193 | a completed project shows no countdown |
| ProjectCard.EndDateLabelUnreachable | src/components/dashboard/ProjectCard.tsx:213-214 | the plain end-date label never shows: the countdown is missing only when the end date is |
| ProjectCard.Render | src/components/dashboard/ProjectCard.tsx:96-214 | the card shows the status style, the DONE count, the progress percentage (at most 100), the most urgent open priority and the countdown badge of the functions above; a badge iff dated and not completed; never the plain end-date label |
| TaskBoard.NextStatus | src/components/dashboard/TaskBoard.tsx:106-108 | the next column along TODO, IN_PROGRESS, DONE, none from the last |
| TaskBoard.PrevStatus | src/components/dashboard/TaskBoard.tsx:102-104 | the previous column along TODO, IN_PROGRESS, DONE, none from the first |
| TaskBoard.MovesAreInverse | src/components/dashboard/TaskBoard.tsx:102-108 | the two steps undo each other |
| TaskBoard.Column | src/components/dashboard/TaskBoard.tsx:372-373 | holds exactly the tasks with that status, and no more of them than the board |
| TaskBoard.ColumnSingleton | src/components/dashboard/TaskBoard.tsx:372-373 | a single task lands in its own column only |
| TaskBoard.ColumnAppend | src/components/dashboard/TaskBoard.tsx:372-373 | the column of two boards end to end is the first's column then the second's: board order and repetitions kept |
| TaskBoard.ColumnsPartition | src/components/dashboard/TaskBoard.tsx:26-54 | the three columns together hold the board's tasks with their multiplicities, so their sizes add up to the task count |
| TaskBoard.ProgressBounds | src/components/dashboard/TaskBoard.tsx:375-377 | at most 100, 0 with an empty last column, 100 when every task is in it |
| TaskBoard.NewTaskRequest | src/components/dashboard/TaskBoard.tsx:234-245 | nothing for a blank title; otherwise the trimmed title, a description absent iff blank, the column's status and the chosen priority |
| TaskBoard.FormPassesSchema | src/components/dashboard/TaskBoard.tsx:234-245 | a form within the schema's bounds is accepted by `tasks.create`, with the form's values |
| TaskBoard.Board.constructor | src/components/dashboard/TaskBoard.tsx:342-346 | no task busy, no add form open, nothing sent |
| TaskBoard.Board.Move | src/components/dashboard/TaskBoard.tsx:361-364 | sends only `{id, status}` and marks that task busy |
| TaskBoard.Board.MoveForward | src/components/dashboard/TaskBoard.tsx:169 | sends the next column's status, which the back button would undo |
| TaskBoard.Board.MoveBack | src/components/dashboard/TaskBoard.tsx:158 | sends the previous column's status, which the forward button would undo |
| TaskBoard.Board.Delete | src/components/dashboard/TaskBoard.tsx:366-369 | an administrator's delete is sent only when confirmed |
| TaskBoard.Board.Settle | src/components/dashboard/TaskBoard.tsx:349-359 | on settle no task is busy any more |
| TaskBoard.Board.OpenAddForm | src/components/dashboard/TaskBoard.tsx:454-463 | an administrator opens the add form under one column |
| TaskBoard.Board.CloseAddForm | src/components/dashboard/TaskBoard.tsx:454-463 | the add form closes, nothing else changes |
| TaskBoard.Board.SubmitAddForm | src/components/dashboard/TaskBoard.tsx:234-245 | sends the form's request for the open column, or nothing for a blank title |
| InvoiceList.Seed | src/components/dashboard/InvoiceList.tsx:29 | the last four characters of the id (all of a shorter one), upper-cased |
| InvoiceList.Generate | src/components/dashboard/InvoiceList.tsx:26-68 | none without a positive budget; otherwise three invoices numbered 001..003 with shares 40, 35 and 25, the first two PAID, the third PAID iff COMPLETED, dated at the start, 30 days later and at the end date or 60 days later |
| InvoiceList.TotalsSplit | src/components/dashboard/InvoiceList.tsx:75-76 | paid plus pending equals the sum of all amounts |
| InvoiceList.ProjectTotals | src/components/dashboard/InvoiceList.tsx:62-76 | nothing pending once the project is COMPLETED, the final 25 % pending before |
| InvoiceList.AmountsNearBudget | src/components/dashboard/InvoiceList.tsx:45-61 | the three rounded amounts add up to the budget give or take one |
| InvoiceList.AmountsMissBudget | src/components/dashboard/InvoiceList.tsx:45-61 | neither bound is tight-able: a budget of 1 is invoiced 0 in total and a budget of 2 is invoiced 3 |
| InvoiceList.IdsDistinct | src/components/dashboard/InvoiceList.tsx:42-58 | a project's three invoice numbers differ |
| ChatBot.Decode | src/components/landing/ChatBot.tsx:181-268 | the action found for a value encodes back to that value, and the default branch takes exactly the values with no known prefix and none of the four fixed names |
| ChatBot.DecodeEncode | src/components/landing/ChatBot.tsx:186-218 | every action the bot offers is recognised again, so the prefix order `lsvc_`, `svc_`, `go_` never misroutes |
| ChatBot.ServiceReplies | src/components/landing/ChatBot.tsx:248 | the ten catalogue replies in catalogue order: lead-service choices while collecting a lead, descriptions otherwise |
| ChatBot.ClearAll | src/components/landing/ChatBot.tsx:125-127 | every message loses its quick replies and keeps everything else |
| ChatBot.EmailExamples | src/components/landing/ChatBot.tsx:297 | instances of the email pattern: "a@b.c" passes and "a@b", without a dot in the domain, fails |
| ChatBot.EmailRefusals | src/components/landing/ChatBot.tsx:297 | instances of the email pattern: a space, an empty local part or an empty domain label fail |
| ChatBot.SubmissionAccepted | src/components/landing/ChatBot.tsx:338-344 | a chatbot submission within the schema's upper bounds is accepted by `leads.create`, stored with the typed name, message and service and the chatbot source |
| ChatBot.StartLead | src/components/landing/ChatBot.tsx:169-177 | the name is asked next; a given service becomes the active one and the lead's, and without one nothing else changes |
| ChatBot.Answer | src/components/landing/ChatBot.tsx:181-268 | no action touches the draft's name or email; the forwarding message is said exactly for an unknown value, which leaves flow, active service and draft as they were |
| ChatBot.AnswerKeeps | src/components/landing/ChatBot.tsx:181-268 | answering a reply that was on screen keeps the lead flow in order and offers only replies the bot can answer |
| ChatBot.Reply | src/components/landing/ChatBot.tsx:272-375 | the name then the email are stored; the service is asked for iff neither the draft nor the conversation has one; the message step ends the flow; the active service never changes |
| ChatBot.ReplyKeeps | src/components/landing/ChatBot.tsx:272-375 | an accepted entry keeps the lead in order, and the message step only runs with a name and an email, so it sends a complete submission |
| ChatBot.ClickedReplyOk | src/components/landing/ChatBot.tsx:110-127 | a reply on screen can be clicked only after the greeting, with nothing in flight, and is one the bot can answer |
| ChatBot.Conversation.constructor | src/components/landing/ChatBot.tsx:83-93 | closed, no message, flow `welcome`, empty input, empty draft, nothing sent |
| ChatBot.Conversation.SetOpen | src/components/landing/ChatBot.tsx:458 | opens or closes the window, nothing else changes |
| ChatBot.Conversation.SetInput | src/components/landing/ChatBot.tsx:636 | the text changes and the error goes |
| ChatBot.Greeting | src/components/landing/ChatBot.tsx:135-160 | a member is greeted by name and offered their projects; a guest is offered a quote; both can discover the services or ask an expert |
| ChatBot.GreetingKeeps | src/components/landing/ChatBot.tsx:131-161 | the greeting, in flight on an empty screen, leaves the conversation well formed: its quick replies are all ones the bot can answer |
| ChatBot.Conversation.Init | src/components/landing/ChatBot.tsx:131-167 | once open with the session known, greets exactly once |
| ChatBot.Conversation.Deliver | src/components/landing/ChatBot.tsx:110-119 | the message in flight appears and the typing indicator goes |
| ChatBot.Conversation.ClearQRs | src/components/landing/ChatBot.tsx:125-127 | every quick reply on screen goes |
| ChatBot.Conversation.UserSay | src/components/landing/ChatBot.tsx:121-123 | the user's words are appended |
| ChatBot.Conversation.Submit | src/components/landing/ChatBot.tsx:337-347 | the lead is recorded as sent; errors are not shown |
| ChatBot.Conversation.Respond | src/components/landing/ChatBot.tsx:110-119 | flow, active service and draft move on, and the bot's message is put in flight with the typing indicator |
| ChatBot.Conversation.Action | src/components/landing/ChatBot.tsx:181-268 | the replies go, the label is said, and the bot answers the decoded action; the default branch is never taken for a reply on screen |
| ChatBot.Conversation.Send | src/components/landing/ChatBot.tsx:272-375 | a blank entry or one made while typing does nothing; a refused one keeps the flow and shows its error; an accepted one is said and answered, and the message step sends the lead |
| ChatBot.Conversation.Reject | src/components/landing/ChatBot.tsx:275-283 | a refused entry is put back in the box trimmed with the step's error, and the conversation, the flow and the lead are unchanged |
| ChatBot.Conversation.Take | src/components/landing/ChatBot.tsx:272-360 | an accepted entry empties the box, is said, is answered, and at the message step sends the lead first |
| ChatBot.Summarize | src/components/landing/ChatBot.tsx:383-403 | the DONE count out of all tasks and their rounded percentage (at most 100), "overdue" from the end date on, "tomorrow" within the last day, days otherwise; amber iff due within a week, else green iff the percentage is 100 |
| ChatBot.CompleteShowsGreen | src/components/landing/ChatBot.tsx:383-403 | a project with every task done and no end date is shown green, with done equal to total |
| ChatBot.UrgentWithinWeek | src/components/landing/ChatBot.tsx:387-390 | the rounded-up day count is at most 0, 1 or 7 exactly at the matching distance from the end date |
| ChatBot.OverdueBeforeTheCard | src/components/landing/ChatBot.tsx:400-401 | during the first day after the end date the chat reads "overdue" while the dashboard badge is not overdue |
| Contact.FormIssues | src/components/landing/Contact.tsx:23-30 | no issue iff a name of 2, an email, a known service and a message of 10; each field's issue exactly when its own rule fails |
| Contact.Submission | src/components/landing/Contact.tsx:90-92 | every field as typed, with source `contact_form` |
| Contact.SentSubmission | src/components/landing/Contact.tsx:90-92 | reading a submission back gives the values it was made from, and only contact-form submissions with every field read back to themselves |
| Contact.KeysAgree | src/components/landing/Contact.tsx:16-19 | the form's keys are the lead schema's keys |
| Contact.ServerAccepts | src/components/landing/Contact.tsx:23-30 | what passes the form is accepted by `leads.create` as a contact-form lead, given the server's stricter message, name, phone and company bounds |
| Contact.ShortMessageRefused | src/components/landing/Contact.tsx:29 | a message of 10..19 characters passes the form and is refused by the server on "message" |
| Contact.ContactForm.constructor | src/components/landing/Contact.tsx:72 | no success panel, empty fields, no error, nothing pending or sent |
| Contact.ContactForm.Edit | src/components/landing/Contact.tsx:74-81 | the values change; once submitted the errors follow them |
| Contact.ContactForm.Submit | src/components/landing/Contact.tsx:90-92 | invalid values only show their errors; valid ones are sent once, tagged `contact_form`, and the request becomes pending |
| Contact.ContactForm.Settle | src/components/landing/Contact.tsx:83-88 | success shows the thank-you panel and resets the form; failure shows the error banner and keeps the values |
| Contact.ContactForm.SendAnother | src/components/landing/Contact.tsx:211 | back to the reset form |
| ServicesData.Slugs | src/lib/services-data.ts:777 | the slugs in catalogue order, same length |
| ServicesData.Find | src/lib/services-data.ts:772-774 | none iff no service has the slug; otherwise the first one that has it |
| ServicesData.SlugsAreServiceKeys | src/lib/services-data.ts:777 | the slugs are the lead schema's service keys, in order |
| ServicesData.SlugsDistinct | src/lib/services-data.ts:29-769 | ten services with pairwise-distinct slugs |
| ServicesData.GetServiceBySlug | src/lib/services-data.ts:772-774 | a service exactly for the listed slugs, and it carries that slug |
| ServicesData.LookupBySlug | src/lib/services-data.ts:772-777 | each listed slug finds its own service and any other string none |
| SidebarNav.ActiveLabels | src/components/dashboard/SidebarNav.tsx:56-59 | a link is highlighted iff the exact one's path equals the pathname, or the others' path prefixes it |
| SidebarNav.OwnPageActive | src/components/dashboard/SidebarNav.tsx:20-49 | every link is highlighted on its own page |
| SidebarNav.AtMostOneActive | src/components/dashboard/SidebarNav.tsx:20-59 | never more than one link is highlighted |
| SidebarNav.NestedPageActive | src/components/dashboard/SidebarNav.tsx:56-59 | under a section only that section's link is highlighted, not the overview |
| SidebarNav.PrefixNotSegment | src/components/dashboard/SidebarNav.tsx:58 | the prefix test ignores segment boundaries: "/dashboard/projectsx" highlights the projects link |
| DashboardShell.Initials | src/components/dashboard/DashboardShell.tsx:27-33 | "U" without a name; otherwise at most two characters |
| DashboardShell.InitialsOfWords | src/components/dashboard/DashboardShell.tsx:28-32 | the upper-cased first letters of the first two words, later words ignored; a single word gives its own initial |
| DashboardShell.LeadingSpacesQuirk | src/components/dashboard/DashboardShell.tsx:30-31 | empty pieces give nothing: a name starting with two spaces has no initials |
| DashboardShell.Shell.constructor | src/components/dashboard/DashboardShell.tsx:25 | the sidebar starts closed |
| DashboardShell.Shell.Toggle | src/components/dashboard/DashboardShell.tsx:86 | the menu button flips the sidebar |
| DashboardShell.Shell.CloseOverlay | src/components/dashboard/DashboardShell.tsx:38-44 | the overlay, shown only while open, closes the sidebar |
| ThemeToggle.Cycle | src/components/layout/ThemeToggle.tsx:42-46 | always a theme; light iff the theme was dark, system iff it was light, dark otherwise |
| ThemeToggle.CycleOfThree | src/components/layout/ThemeToggle.tsx:42-46 | three clicks from any theme come back to it, passing through the other two |
| ThemeToggle.UnknownGoesDark | src/components/layout/ThemeToggle.tsx:42-46 | an absent or unknown theme goes to dark |
| ThemeToggle.ClickChangesIcon | src/components/layout/ThemeToggle.tsx:48-49 | each click changes the icon, and the icon and label name the same theme |
| ThemeToggle.Toggle.constructor | src/components/layout/ThemeToggle.tsx:31 | not mounted at first |
| ThemeToggle.Toggle.Render | src/components/layout/ThemeToggle.tsx:36-49 | the placeholder iff not mounted, else the button with the theme's icon and label |
| ThemeToggle.Toggle.Mount | src/components/layout/ThemeToggle.tsx:34 | the effect marks it mounted and keeps the theme |
| ThemeToggle.Toggle.Click | src/components/layout/ThemeToggle.tsx:42-46 | the theme becomes the next one in the cycle and the icon changes |

## Left out

- Rendering, styling, animation and every component of the site not named above. They are markup.
- Database behaviour beyond maps of rows: transactions, isolation, and the race between the 24-hour lookup and the insert in `leads.create`. These are concurrency.
- Cascade and restrict referential actions: the Prisma schema is not part of this model. Deletions take the action as a parameter (`Store.OnDelete`), and a database-level failure is one error value (`Common.DbError`).
- The database's ordering of tasks by priority then creation date in `tasks.getByProject`. `TasksRouter.GetByProject` states which tasks are returned, not their order. How the database sorts the `Priority` enum is set by the Prisma schema, which is not part of this model.
- ProjectsRouter.GetById: the project's tasks are a set. Their order, priority descending then creation date ascending, is not modelled, for the same reason as in `tasks.getByProject`.
- LeadsRouter.GetAll: a cursor naming no matching lead gives an empty page, while Prisma would position at the cursor row or fail. Only cursors the procedure handed out are covered.
- bcrypt and Zod's email/cuid/url checks: they are library calls and appear as the fields of `Common.Lib`.
- ProjectSchema.ParseProjectCreate: `startDate` and `endDate` arrive as already coerced millisecond times, so the BAD_REQUEST that `z.coerce.date()` raises for an unparseable date is not modelled.
- ProjectSchema.ParseProjectUpdate: the same unparseable-date BAD_REQUEST of `z.coerce.date()` is not modelled.
- ProjectSchema.ParseTaskCreate: `dueDate` arrives as an already coerced millisecond time, so the BAD_REQUEST of `z.coerce.date()` for an unparseable due date is not modelled.
- ProjectSchema.ParseTaskUpdate: the same unparseable-due-date BAD_REQUEST is not modelled.
- ProjectSchema.ParseProjectCreate: `budget` is an integer. `z.number().positive()` also accepts a fractional budget such as 1500.5, which the model cannot represent; the same holds for ProjectSchema.ParseProjectUpdate.
- LeadsRouter.ParseListQuery: `limit` is an integer. `z.number().min(1).max(100)` also accepts a fractional limit such as 2.5, and the database then refuses `take: limit + 1`; that error is not modelled.
- Auth.js internals: JWT signing, cookies, session expiry (only the 30-day `maxAge` constant is recorded) and the `signIn` redirect.
- The next-intl runtime: negotiation, its own redirects and message loading. The middleware's locale response is one value, `Intl`.
- src/lib/email.ts and prisma/seed.ts are not part of this model. `leads.create` never calls the notifier.
- Floating point: `Math.round` and `Math.ceil` are computed exactly on integers (`Numeric.RoundDiv`, `Numeric.CeilDiv`). JavaScript floats may differ at exact halves, for example `budget * 0.35`.
- Case mapping: `toUpperCase`/`toLowerCase` act on ASCII letters only.
- Text length: JavaScript's `length`, Zod's `.min`/`.max` and `slice` count UTF-16 code units, while the model counts characters (Unicode scalar values). A character outside the Basic Multilingual Plane, such as most emoji, counts twice in the source and once here, so bounds near a limit and `truncate` differ on such text.
- Middleware.Run: the matcher is read as a case-sensitive regular expression over the whole path. How Next.js compiles it (case folding, trailing slashes, `_next/data` requests) is not modelled.
- LeadsRouter.GetAll: leads with equal creation times may be listed in either order, as the database may; `LeadsRouter.LeadListUnique` shows the listing is unique otherwise.
- Dates: `toISOString`, `toLocaleString`, calendar days and daylight saving. Times are integer milliseconds, and `setDate(d + n)` is `n` times 24 hours.
- The chatbot's wording, locale, bold rendering, message ids, timers and scrolling. Bot messages are identified by their prompt, and a timer is a pending message that `Deliver` shows.
- The chatbot's unknown service keys: `SVC[k]` for a key outside the catalogue would throw. The model offers only catalogue keys.
- `handleSend`'s default branch: the input box is shown only in the three lead flows, so it is unreachable, and `Conversation.Send` requires one of them.
- The date picker of the task form: the due date arrives already parsed.
- Service page content other than titles: descriptions, statistics, features and technology lists are copy.
- The TopBar's sign-out and language switch.
- Contact.ContactForm.Edit: field errors are recomputed only as a whole after a submission; react-hook-form's per-field touched tracking is not modelled.

