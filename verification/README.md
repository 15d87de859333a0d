# Projects and comments: a Dafny model

This project models the core of a small project-management web application. Users create
projects, each with a name, description, image, status, priority and dates. They attach comments
to projects, and comments can answer other comments. The model covers:

- the two collection endpoints, `GET`/`POST /api/comments` and `GET`/`POST /api/projects`, over
  an abstract store of users, projects and comments held in three finite maps keyed by id;
- the two validation schemas, in both the server's and the forms' declarations, with the
  per-field validators of the schema library they use;
- the comment form and the project form: initialisation, field edits, the payload they build,
  the PUT/POST choice, error routing, submit enablement and the heading/button mode;
- the comment list and the project list: the query they send, the modal state machine, the
  reply target, the labels and badges, the priority colour bands, the recent-comment cap and
  the confirm-then-delete flow;
- the projects page (status tally, distinct members, projects created this month, filter reset)
  and the home dashboard (four counters, greeting by hour).

Everything is a pure function over immutable datatypes. The exceptions are the operations that
iterate over a map's keys: listing, sorting, the placeholder-user lookup and the project POST.
These are methods with loop invariants. Library checks and clock readings are parameters:
`isUuid`, `isUrl`, `toIso` (date to ISO string, `None` for an invalid date), `day` (an instant
rendered as `YYYY-MM-DD`), the session user, the hour, the current instant, and midnight on the first of the month. HTTP answers
are the datatypes `Reply` and `ListReply`, and `confirm` is a boolean.

Modules, in dependency order: `Wrappers`, `Text`, `Json`, `Zod` (validators and error reports),
`Statuses`, `Store`, `Ordering` (sorted listings, the newest-n selection), `CommentSchema`,
`ProjectSchema`, `Http`, `CommentRoute`, `ProjectRoute`, `CommentForm`, `ProjectForm`,
`CommentList`, `StatusLabels`, `ProjectList`, `ProjectsPage`, `Dashboard`.

## Model

| member | source | states |
|---|---|---|
| Zod.BoundedString | app/api/comments/route.ts:7-8 | a string key passes exactly when present, a string, and within the length bounds; a too-short string fails with the min message and a too-long one with the max message, under the key |
| Zod.NullableString | app/api/comments/route.ts:11 | the key must be present and a string or null; a missing key fails with "Required" |
| Zod.OptionalUuid | app/api/comments/route.ts:9-10 | absent, null or a UUID-form string passes; only a string yields an id |
| Zod.OptionalString | app/api/projects/route.ts:22-23 | absent or a string passes, and null too only when nullable; a failure is a type issue under the key |
| Zod.UrlOrEmpty | app/api/projects/route.ts:12 | absent, a URL or "" passes (null too on the nullable side); a non-URL string fails with the schema's URL message |
| Zod.EnumString | app/api/projects/route.ts:13-20 | a string passes exactly when it is one of the allowed values |
| Zod.NumberRange | app/api/projects/route.ts:21 | a number passes exactly when it lies in the closed range, and is kept as is |
| Zod.FieldErrorsKeys | components/Comments/CommentCrud.tsx:161-166 | every key of the per-field error map is the first path segment of some issue |
| Zod.FieldErrorsLastWins | components/Comments/CommentCrud.tsx:161-166 | the message kept for a field is that of the last issue on that field |
| Zod.FieldErrorsOnlyNamed | components/Comments/CommentCrud.tsx:161-166 | a key that no issue names gets no entry |
| Zod.Flatten | app/api/projects/route.ts:169-172 | one `{field, message}` per issue, in order, with the issue's message |
| Zod.FlattenKeepsPath | app/api/projects/route.ts:169-172 | splitting a reported field on "." gives back the issue's path |
| Statuses.NamesRoundTrip | app/api/projects/route.ts:13-20 | the six wire names and the six statuses correspond one to one |
| CommentSchema.CheckAccepts | app/api/comments/route.ts:6-12 | the five field validators together pass exactly when the body meets the schema's rules |
| CommentSchema.CheckIssuesOnKeys | app/api/comments/route.ts:6-12 | every issue of a failed object body lies under one of the five schema keys |
| CommentSchema.Parse | app/api/comments/route.ts:6-12 | accepted exactly when the title is 1..200 characters, the content non-empty, the optional ids absent/null/UUID, and authorId present as string or null; yields those values; a failure has at least one issue |
| CommentSchema.ParsedIsWellFormed | app/api/comments/route.ts:7-10 | whatever validates satisfies the length and UUID rules |
| CommentSchema.ParseSerialize | components/Comments/CommentCrud.tsx:133-146 | a well-formed input, serialised as the form sends it, validates back to itself |
| CommentSchema.ClientAgreesWithServer | components/Comments/CommentCrud.tsx:10-19 | the form's schema and the handler's accept the same bodies and read them the same way; only messages differ |
| CommentSchema.TitleOutOfBounds | app/api/comments/route.ts:7 | an empty or over-200 title is the first issue, with the schema's message for that bound |
| CommentSchema.EmptyContent | app/api/comments/route.ts:8 | empty content is reported under `content` |
| CommentSchema.AuthorKeyRequired | app/api/comments/route.ts:11 | a body without the authorId key is refused with "Required" |
| CommentRoute.FilterSemantics | app/api/comments/route.ts:20-23 | without a parent parameter only root comments match; with one only its direct replies; the project constraint applies only to a non-empty projectId |
| Ordering.SortIds | app/api/comments/route.ts:75-77 | the ids of a set, each once, ordered by creation time in the requested direction |
| CommentRoute.Children | app/api/comments/route.ts:48-62 | a comment's direct replies, each once, oldest first, with their authors |
| CommentRoute.List | app/api/comments/route.ts:14-80 | the matching comments, each once, newest first, each with its author, parent, project, replies and a reply count equal to the replies shown |
| CommentRoute.FirstMissing | app/api/comments/route.ts:96-135 | the 404 cause is the first dangling truthy reference in the order author, project, parent |
| CommentRoute.Create | app/api/comments/route.ts:90-208 | invalid JSON gives 500; a refused body gives 400 with the issues; a dangling reference gives 404; otherwise exactly the new row is added; the store changes only on creation |
| CommentRoute.CreateStatus | app/api/comments/route.ts:96-206 | the answer is 201 on creation, 400 exactly for a refused body, 404 for a missing reference, 500 otherwise |
| CommentRoute.CreateAddsExactlyOne | app/api/comments/route.ts:156-157 | a creation adds exactly one comment under the new id; nothing else in the store changes |
| CommentRoute.CreatedContents | app/api/comments/route.ts:138-154 | the stored comment has the given title and content; each id is stored only when the body gave a truthy one |
| CommentRoute.NullAuthorSkipsUserCheck | app/api/comments/route.ts:96-107 | an explicit null author never yields the user 404, and is stored as no author |
| CommentRoute.UnknownAuthorIs404 | app/api/comments/route.ts:96-107 | an accepted body naming an unknown author gives 404 "Utilisateur non trouvé" and stores nothing |
| CommentRoute.CreatePreservesReferences | app/api/comments/route.ts:96-135 | if every comment's references resolve before a creation, they still do after it |
| CommentRoute.CreatedInRootListing | app/api/comments/route.ts:20-23 | a new comment appears in the default listing exactly when it was created without a truthy parent |
| ProjectSchema.CheckAccepts | app/api/projects/route.ts:6-24 | the seven field validators together pass exactly when the body meets the schema's rules |
| ProjectSchema.CheckIssuesOnKeys | app/api/projects/route.ts:6-24 | every issue of a failed object body lies under one of the seven schema keys |
| ProjectSchema.FailedFieldsReported | app/api/projects/route.ts:6-24 | the issue of every failed field appears in the report |
| ProjectSchema.Parse | app/api/projects/route.ts:6-24 | accepted exactly when the name is 1..100 characters, the status one of six, the priority 1..5, the description absent or a string, and the image absent/URL/"" (null on the server) |
| ProjectSchema.ClientAcceptedImpliesServerAccepted | components/projects/ProjectCrud.tsx:8-19 | whatever the form's schema accepts, the handler's accepts and reads the same way |
| ProjectSchema.NullImageOnlyOnServer | app/api/projects/route.ts:12 | a null image passes on the server and fails on the form with a union issue under `image` |
| ProjectSchema.NullDescriptionRejected | app/api/projects/route.ts:11 | a null description is refused on both sides with a type issue |
| ProjectSchema.NameOutOfBounds | app/api/projects/route.ts:7-10 | an empty or over-100 name is the first issue, with the schema's own message |
| ProjectRoute.FindByEmail | app/api/projects/route.ts:93-95 | finds a user with the e-mail, or reports that none has it |
| ProjectRoute.AddSentinel | app/api/projects/route.ts:97-105 | adding the placeholder user where none exists makes it the only one |
| ProjectRoute.StoredDate | app/api/projects/route.ts:114-117 | a falsy date is stored as null; a truthy one is converted, and an invalid one fails |
| ProjectRoute.Create | app/api/projects/route.ts:85-190 | invalid JSON gives 500; validation comes first and a refused body gives 400 with flattened errors and no new user; the placeholder user is reused or created and kept even if the insert fails; the creator is always that user; falsy description and image are stored as null; each date is stored as its conversion, null when falsy |
| ProjectRoute.CreateMany | app/api/projects/route.ts:93-105 | any run of POSTs keeps at most one placeholder user, and exactly one once a project was created |
| Ordering.Newest | app/api/projects/route.ts:58-61 | the n newest keys (all when fewer), newest first, each once, none left out newer than one taken |
| ProjectRoute.Recent | app/api/projects/route.ts:46-61 | a project's five newest comments, newest first, with title, date and author |
| ProjectRoute.View | app/api/projects/route.ts:26-69 | one listed project: the stored row, its creator, its recent comments and its comment count |
| ProjectRoute.List | app/api/projects/route.ts:26-73 | every project once, newest first, each with its relations |
| Http.SaveRequest | components/Comments/CommentCrud.tsx:138-139 | PUT exactly when a record is edited, POST otherwise |
| Http.SaveRequestTarget | components/projects/ProjectCrud.tsx:85-86 | the id read back from the request URL is the edited record's, and there is none for a POST |
| Http.SaveRequestInjective | components/Comments/CommentCrud.tsx:138-139 | two different edits never produce the same request |
| Http.DeleteFlow | components/Comments/CommentList.tsx:94-113 | a DELETE to the item only after confirmation, then a refetch exactly on an ok answer and the alert otherwise |
| Http.DeleteRefreshOrAlert | components/projects/ProjectList.tsx:67-86 | a delete refreshes or alerts, never both, and does either exactly when confirmed |
| Http.Refresh | components/Comments/CommentList.tsx:53-71 | the items are replaced only by an ok answer; loading ends either way |
| CommentForm.SyncPrecedence | components/Comments/CommentCrud.tsx:76-91 | when editing, the comment's texts load and each of its ids wins over the prop, which wins over null; otherwise the typed texts stay and the ids follow the props |
| CommentForm.InitialIsSynced | components/Comments/CommentCrud.tsx:57-62 | for a new comment the effect leaves the initial state unchanged |
| CommentForm.HandleChange | components/Comments/CommentCrud.tsx:93-103 | the field gets the value, or null for ""; other fields and other errors are unchanged; the field's error is blanked |
| CommentForm.HandleChangeIdempotent | components/Comments/CommentCrud.tsx:93-103 | typing the same value twice is typing it once |
| CommentForm.HandleChangeCommutes | components/Comments/CommentCrud.tsx:93-103 | edits to two different fields commute |
| CommentForm.DataToValidateIds | components/Comments/CommentCrud.tsx:122-128 | the ids validated are the truthy ones and null otherwise; the author is the session's user or null |
| CommentForm.Submit | components/Comments/CommentCrud.tsx:115-180 | the body is sent exactly when it validates, to the edited comment's URL or the collection; a refused body routes issues by field and never sets `submit`; any other failure sets only `submit`; onSave runs exactly on an ok answer |
| CommentForm.SubmitSendsWhatServerAccepts | components/Comments/CommentCrud.tsx:133-147 | the handler accepts every body the form sends and reads back exactly the validated input |
| CommentForm.StatusInFailureMessage | components/Comments/CommentCrud.tsx:149-152 | without a server message the error names the status, which reads back from it |
| CommentForm.SubmitDisabledIffBlank | components/Comments/CommentCrud.tsx:374-378 | submit is disabled exactly while loading or when the title or the content is blank |
| CommentForm.EnabledHasTexts | components/Comments/CommentCrud.tsx:376-378 | an enabled submit has a non-empty title and content |
| CommentForm.ModeOf | components/Comments/CommentCrud.tsx:182-183 | editing when a comment is given, else replying on a truthy parent prop, else creating |
| CommentForm.ModeShown | components/Comments/CommentCrud.tsx:190-195 | the heading, and the button label of line 384, each determine the mode and are determined by it |
| ProjectForm.DefaultFailsOnlyOnName | components/projects/ProjectCrud.tsx:34-42 | the untouched form fails with exactly one issue, "Le nom est requis" under `name` |
| ProjectForm.HandleChange | components/projects/ProjectCrud.tsx:121-129 | the field gets the value; other fields and other errors are unchanged; the field's error is blanked |
| ProjectForm.HandleChangeCommutes | components/projects/ProjectCrud.tsx:121-129 | edits to two different fields commute |
| ProjectForm.SentDate | components/projects/ProjectCrud.tsx:77-82 | a falsy date is sent as null, a truthy one as its ISO conversion |
| ProjectForm.ApiPayload | components/projects/ProjectCrud.tsx:74-83 | a payload is built exactly when both dates convert |
| ProjectForm.ApiPayloadAccepted | components/projects/ProjectCrud.tsx:71-93 | what the form validated, once coerced, is accepted by the handler with the same name, description, status and priority, the image only when non-empty, each truthy date as its ISO conversion and a falsy one as null |
| ProjectForm.EditKeepsImage | components/projects/ProjectCrud.tsx:46-62 | saving a loaded project unchanged sends its image as stored (null stays null), its description as text and its name |
| ProjectForm.IssuesMissSubmit | components/projects/ProjectCrud.tsx:105-112 | no validation issue lands on the `submit` key |
| ProjectForm.Submit | components/projects/ProjectCrud.tsx:64-119 | issues route by field; the payload goes to the edited project's URL or the collection; onSave exactly on an ok answer; a non-ok answer shows its message or the default under `submit`; a network error shows the default |
| ProjectForm.EditingShownAndSent | components/projects/ProjectCrud.tsx:134-136 | heading, button label and verb all agree on whether a project is edited |
| CommentList.ParamGet | components/Comments/CommentList.tsx:56-61 | a looked-up parameter is present exactly when some pair has the key, and it is one of those pairs |
| CommentList.ParamsFromProps | components/Comments/CommentList.tsx:56-59 | each parameter is present exactly when its prop is non-empty, with the prop's value |
| CommentList.ListFilter | components/Comments/CommentList.tsx:56-61 | the handler filters by the project prop and the parent prop (roots when empty); featureId changes nothing |
| CommentList.Step | components/Comments/CommentList.tsx:77-92 | add, edit and reply open the modal; edit records the comment, reply its id; save and cancel close it and clear both |
| CommentList.RunKeepsClear | components/Comments/CommentList.tsx:77-82 | a closed modal never holds an edited or replied-to comment, and a final save or cancel leaves it closed |
| CommentList.ReplyTarget | components/Comments/CommentList.tsx:418 | the replied-to comment's id wins over the parent prop |
| CommentList.ReplyReachesForm | components/Comments/CommentList.tsx:89-92 | clicking reply opens the form in reply mode with that comment as the parent |
| CommentList.EditReachesForm | components/Comments/CommentList.tsx:84-87 | clicking edit opens the form in edit mode on that comment |
| CommentList.CountLabelReadsBack | components/Comments/CommentList.tsx:139-141 | the label reads back as the count, plural exactly above one |
| CommentList.ReplyBadge | components/Comments/CommentList.tsx:323-339 | the badge shows exactly when the reply count is positive, as "N réponse(s)" |
| CommentList.BadgeMatchesReplies | components/Comments/CommentList.tsx:323-339 | for a listed comment the badge shows exactly when replies are nested, and counts them |
| CommentList.DeleteComment | components/Comments/CommentList.tsx:94-113 | DELETE `/api/comments/{id}` after confirmation, refetch on ok, the comment alert otherwise |
| StatusLabels.StatusLabelRoundTrip | app/projects/page.tsx:94-111 | each status has its own label among six, from which it reads back |
| StatusLabels.UnknownStatusShownRaw | components/projects/ProjectList.tsx:121-122 | any other name is shown as it is |
| ProjectList.Band | components/projects/ProjectList.tsx:126-131 | each priority falls in one of the four colour bands |
| ProjectList.PriorityBands | components/projects/ProjectList.tsx:126-131 | the colour is the band's class, bands rise with priority, and two colours agree exactly when the bands do |
| ProjectList.RecentShown | components/projects/ProjectList.tsx:339 | at most two comments, the first of those listed |
| ProjectList.ShownAreNewest | components/projects/ProjectList.tsx:339 | with the handler's listing, the card shows the project's two newest comments, newest first, none left out newer |
| ProjectList.Step | components/projects/ProjectList.tsx:56-65 | add opens; edit opens on the project; save and cancel close and clear it |
| ProjectList.ModalDrivesForm | components/projects/ProjectList.tsx:62-65 | editing opens the form in edit mode saving to the project's URL; after save or cancel, add opens it for a new project |
| ProjectList.CountLabelReadsBack | components/projects/ProjectList.tsx:148 | the label reads back as the count, plural exactly above one |
| ProjectList.DeleteProject | components/projects/ProjectList.tsx:67-86 | DELETE `/api/projects/{id}` after confirmation, refetch on ok, the project alert otherwise |
| ProjectsPage.ByStatusCounts | app/projects/page.tsx:43-57 | the tally has a key for each of the six statuses and each status met; each key counts exactly the projects with that status |
| ProjectsPage.ByStatusSumsToTotal | app/projects/page.tsx:42-57 | when every status is one of the six, the six counters sum to the total |
| ProjectsPage.ListingTallyIsTotal | app/projects/page.tsx:42-57 | on the handler's listing the six counters sum to the number of projects |
| ProjectsPage.MemberIdsExactly | app/projects/page.tsx:67-75 | an id is counted exactly when some project's member list holds it; projects without the list add none |
| ProjectsPage.MemberIdsBound | app/projects/page.tsx:67-75 | distinct members never exceed the total length of the member lists |
| ProjectsPage.CountSince | app/projects/page.tsx:62-64 | the number of projects created at or after the threshold, at most the total |
| ProjectsPage.AsWrittenMissesFirstMorning | app/projects/page.tsx:60-64 | with the threshold as written, a project from 01:00 on the 1st is not counted at noon on the 5th |
| ProjectsPage.IntendedCountsWholeMonth | app/projects/page.tsx:60-64 | with midnight as threshold a project counts exactly when created this month; the written threshold drops exactly those created on the 1st before the current time of day |
| ProjectsPage.LoadStats | app/projects/page.tsx:35-89 | only an ok answer changes the stats: total, tally, distinct members, and the projects created since the threshold as the page computes it (the first of the month at the current time of day), never more than those created since midnight on the first; loading ends either way |
| ProjectsPage.Reset | app/projects/page.tsx:346-349 | reset leaves both filters empty |
| ProjectsPage.FilterBadges | app/projects/page.tsx:360-371 | a badge shows exactly for each non-empty filter, with the status label or "Priorité N" |
| ProjectsPage.ResetOfferedIffUseful | app/projects/page.tsx:346-350 | reset is enabled exactly when it changes something, and exactly when a badge shows |
| Dashboard.WithStatusCounts | app/page.tsx:40-44 | the status filter keeps as many projects as the projects page's tally counts |
| Dashboard.Load | app/page.tsx:26-52 | the counters change only when both answers are ok: both lengths, IN_PROGRESS and DONE counts, whose sum is at most the total; loading ends either way |
| Dashboard.AgreesWithProjectsPage | app/page.tsx:40-44 | the in-progress and done counters equal the projects page's tally for those statuses |
| Dashboard.TotalsFromStore | app/page.tsx:37-39 | fed by the two handlers, the page counts every project but only the root comments |
| Dashboard.GreetingsThroughTheDay | app/page.tsx:66-71 | the greeting is its period's, periods follow each other through the day, and two hours share a greeting exactly when they share a period |

## Left out

- The id-scoped handlers (`/api/comments/[id]`, `/api/projects/[id]`) are not part of this model. The forms' PUT and the lists' DELETE are modelled only as the requests sent.
- Persistence: the store is three maps, and an insert fails only when its id is taken. Prisma errors other than that, and the response `include` shapes of the POST handlers, are left out; a created row is returned as stored.
- Project membership (`users`, `_count.users`) is not in the store. The projects page reads member lists as given in its input rows.
- The schema library's `uuid()` and `url()` checks and date conversion are parameters. `new Date(x)` on a string that names no date is modelled as a failure (500 on the server, the generic error on the form). The forms' `YYYY-MM-DD` rendering is the `day` parameter.
- Default English messages of the schema library follow its version-3 wording; only the messages the source gives are taken verbatim.
- String lengths are counted in characters of `seq<char>`; JavaScript counts UTF-16 code units.
- Priority is an `int`: `z.number()` also accepts fractions, which are not modelled.
- The session (`useSession`), `confirm`, `alert`, console output, rendering, CSS classes (`getStatusColor`), date formatting and the one-second clock timer are left out. The session user, the confirmation and the hour are inputs.
- `Promise.all` on the dashboard is modelled as both answers arriving; ordering and races between requests are out of scope.
- The projects page's filters are shown but not passed to the project list, which always lists every project; the model has no filtered listing.
- The displayed order of the status tally (`Object.entries`) is not modelled; the tally is a map.
- CommentForm.SubmitDisabledIffBlank: treats a null title or content as empty, where the component would throw on `.trim()` of null after a field was cleared.
- The form's `status` is declared with `z.nativeEnum` and the handler's with `z.enum`; both are modelled by `Zod.EnumString`. They accept the same six names and differ only in the issue for a non-string value (`invalid_enum_value` against `invalid_type`), which the model does not distinguish.
- `response.json()` on a failed save is a parse error or an object whose `message` is a string or absent; messages of other JSON types are not modelled.
- Query strings and URLs are built without URL-encoding of ids and values.
- The comment list's rendering of a comment whose author is null is not modelled.
- Comment `authorId` is nullable in the handler while the stored schema makes it required; the model follows the handler and stores `None`.

## Findings

| source | as written | input that shows it | evidently intended | confidence | as-written member | corrected member |
|---|---|---|---|---|---|---|
| app/projects/page.tsx:60-64 | the "this month" threshold is now with its day set to 1, keeping the current time of day | a project created at 01:00 on the 1st, viewed at noon on the 5th, is not counted | count every project created since midnight on the 1st | high; not executed | ProjectsPage.AsWrittenMissesFirstMorning | ProjectsPage.IntendedCountsWholeMonth |

`ProjectsPage.LoadStats` follows the page as written and counts from `ProjectsPage.MonthStartAsWritten`; its contract also bounds that count by the one from midnight on the first.
