# Project Pulse — health scores, check-ins and risks in Dafny

Project Pulse is a project-health dashboard. Employees post weekly updates
(progress and confidence) and log risks. Clients post feedback (satisfaction
and communication). After every post, the score engine recomputes the
project's 0–100 health score and its status: On Track, At Risk or Critical.
Three role dashboards read the project listing.

This project models that core in Dafny and proves properties of the model:

- **Records** (`checkin_model.dfy`, `risk_model.dfy`, `project_model.dfy`):
  - the three schemas: enums, required fields, numeric ranges and defaults;
  - `Create` gives the stored record, or nothing when validation fails.
- **Store** (`store.dfy`): a `Store` class holding the three collections.
  - Check-ins and risks are append-only.
  - Projects change only through `FindByIdAndUpdate`.
- **Score engine** (`health_score.dfy`):
  - the three queries, the arithmetic and the single project write;
  - the write is an imperative method proved against the pure `Evaluate`.
- **Route handlers** (`checkins_route.dfy`, `risks_route.dfy`, `projects_route.dfy`):
  - methods on the store, with every status code;
  - a `Fault` parameter stands for a failing insert or a failing recompute.
- **Derived views** (`project_card.dfy`, `health_score_display.dfy`,
  `activity_timeline.dfy`, `score_tiers.dfy`, `admin_page.dfy`,
  `client_page.dfy`, `employee_page.dfy`): pure functions of the listing.
- **Forms** (`risk_form.dfy`, `client_feedback_form.dfy`): classes whose
  methods update the form state the way the React state setters do.
- **Helpers** (`sequences.dfy`, `text.dfy`): filtering, a stable sort by an
  integer key, splitting, trimming and upper-casing.

Modelling conventions:

- JavaScript numbers are `real`.
- `Math.round` is `(x + 0.5).Floor`.
- JavaScript falsiness of an optional number is "missing or 0".
- Identifiers are `nat` and timestamps are `int` milliseconds.
- "Newest first" is a stable sort on the key `-createdAt`.
- The store's clock is the parameter `now`. With `timestamps: true` the store fills `createdAt` with `now` only when the document has none, so a `createdAt` sent in a request body is kept.
- The session user is a parameter `user: Option<AuthUser>`.
- A role outside admin, employee and client is `OtherRole`.

In one place the code and its own comment disagree. The comment on the risk
listing says employees see the risks "for their projects", but the query
filters on `user`, the reporter. The model follows the code: an employee
sees the risks they reported.

## Model

| member | source | states |
|---|---|---|
| CheckInModel.ParseType | models/CheckIn.ts:3-6 | the `type` enum accepts exactly the two labels, and each parses back to its kind |
| CheckInModel.Create | models/CheckIn.ts:24-69 | a record exists iff project, user and a known type are present and each numeric field present is in range; it keeps the body's values; its `createdAt` is the body's when given, the store time otherwise |
| CheckInModel.CreateToDoc | models/CheckIn.ts:24-69 | every valid stored check-in is re-created from its own document (round trip), its creation time included, whatever the clock reads |
| CheckInModel.OutOfRangeRejected | models/CheckIn.ts:42-46 | an out-of-range progress is rejected, never clamped |
| CheckInModel.PerKindFieldsOptional | models/CheckIn.ts:41-64 | an employee update without progress or confidence, and a feedback without ratings, are both accepted |
| RiskModel.ParseSeverity | models/Risk.ts:3-7 | the severity enum accepts exactly Low, Medium and High, and each label parses back to its value |
| RiskModel.ParseStatus | models/Risk.ts:9-12 | the status enum accepts exactly Open and Resolved, and each label parses back to its value |
| RiskModel.SeverityOrDefault | models/Risk.ts:41-45 | a missing severity is Medium; a given one is stored as given |
| RiskModel.StatusOrDefault | models/Risk.ts:50-54 | a missing status is Open; a given one is stored as given |
| RiskModel.Create | models/Risk.ts:25-59 | a risk exists iff the document is valid (project, user, non-empty title and mitigation, known enums); it keeps project, user, title and mitigation; its severity and status are the given ones, or Medium and Open when omitted; its `createdAt` is the body's when given, the store time otherwise |
| RiskModel.CreateDefaults | models/Risk.ts:41-54 | omitting the enums gives a Medium, Open risk; a body may create a risk already Resolved |
| RiskModel.UnknownEnumRejected | models/Risk.ts:41-54 | a severity or status outside the enums makes creation fail |
| RiskModel.CreateToDoc | models/Risk.ts:25-59 | every valid stored risk is re-created from its own document (round trip), its creation time included, whatever the clock reads |
| ProjectModel.StatusLabelInjective | models/Project.ts:3-8 | no two statuses share a stored label |
| ProjectModel.ParseStatus | models/Project.ts:3-8 | the status enum accepts exactly the four labels, and each label parses back to its status |
| ProjectModel.Create | models/Project.ts:23-67 | a project exists iff the document is valid; every given field is stored as given (the status parsed from its label); the defaults are On Track, 85 and no employees; the result is valid |
| ProjectModel.CreateToDoc | models/Project.ts:23-67 | every valid stored project is re-created from its own document under its own identifier (round trip) |
| ProjectModel.WithHealth | lib/health-score.ts:66-69 | the engine's write sets the score and status and leaves every other field, the dates included, as it was; it keeps a valid project valid when the score is in 0..100 |
| DocumentStore.FindById | lib/health-score.ts:66 | it finds the project with that identifier, or reports that none has it |
| DocumentStore.UpdateById | lib/health-score.ts:66-69 | the entry with the identifier gets the new pair; every other entry is unchanged |
| DocumentStore.UpdateChangesAtMostOne | lib/health-score.ts:66-69 | with distinct identifiers at most one entry differs afterwards, and none if the identifier is unknown |
| DocumentStore.UpdateByIdIdempotent | lib/health-score.ts:66-69 | writing the same pair twice equals writing it once |
| DocumentStore.Store.InsertCheckIn | app/api/checkins/route.ts:19-22 | it appends one check-in; risks and projects are unchanged |
| DocumentStore.Store.InsertRisk | app/api/risks/route.ts:57-60 | it appends one risk; check-ins and projects are unchanged |
| DocumentStore.Store.FindByIdAndUpdate | lib/health-score.ts:66-69 | the projects become `UpdateById` of the old ones; the other collections are unchanged |
| HealthScore.CalculateAndUpdateHealthScore | lib/health-score.ts:6-82 | the method's result equals the pure `Evaluate` of the old collections; only that project gets the rounded score and status |
| HealthScore.RecomputeTwice | lib/health-score.ts:6-82 | running the engine twice with no new activity returns the same pair and leaves the projects as one run does |
| HealthScore.RecentUpdatesSelection | lib/health-score.ts:10-15 | it reads min(5, n) employee updates of the project, newest first; each update left out is no newer than any one read |
| HealthScore.LatestFeedbackSelection | lib/health-score.ts:17-20 | there is no feedback iff the project has none; otherwise it reads a feedback of the project no older than any other |
| HealthScore.NewestUpdateLeads | lib/health-score.ts:42-46 | an employee update newer than all others becomes the first one read, and its progress is the schedule component |
| HealthScore.NewestFeedbackLeads | lib/health-score.ts:17-20 | a feedback newer than all others is the one read |
| HealthScore.OpenHighRisksAppend | lib/health-score.ts:23-27 | only an open High risk of the project raises the count, and by exactly one |
| HealthScore.ClientComponent | lib/health-score.ts:30-33 | missing feedback, or a satisfaction that is missing or 0, gives 50; a satisfaction in 1..5 gives 20..100 |
| HealthScore.ConfidenceTermBounds | lib/health-score.ts:38 | for a valid record, `confidence \|\| 3` lies in [1, 5] |
| HealthScore.ConfidenceComponent | lib/health-score.ts:35-40 | no updates gives 60; otherwise the mean confidence scaled to [20, 100] |
| HealthScore.ProgressComponent | lib/health-score.ts:42-46 | no updates gives 60; a missing or 0 progress gives 50; otherwise the newest update's progress |
| HealthScore.ZeroProgressScoresAsMissing | lib/health-score.ts:44 | a recorded progress of 0% scores exactly like a missing one (50) |
| HealthScore.RoundInRange | lib/health-score.ts:67 | rounding a score in [0, 100] stays in [0, 100] |
| HealthScore.RoundMonotone | lib/health-score.ts:67 | `Math.round` is monotone |
| HealthScore.RoundReaches | lib/health-score.ts:67 | a rounded score reaches k iff the unrounded score reaches k − 0.5 |
| HealthScore.FinalInRange | lib/health-score.ts:53 | the final score lies in [0, 100] for all inputs, and so does the stored score |
| HealthScore.MoreRisksNeverRaise | lib/health-score.ts:52-53 | one more open High risk never raises the score, unrounded or stored |
| HealthScore.ReportContents | lib/health-score.ts:56-81 | the status comes from the unrounded score by the 80/60 thresholds and is never Completed; the stored score is the rounded one; the breakdown holds the three rounded components, the risk count and a penalty of 10 per risk |
| HealthScore.RoundingSplitsStatus | lib/health-score.ts:56-69 | 79.5 is stored as 80 with At Risk, and 59.5 as 60 with Critical; concrete inputs reach both cases (1 and 3 open High risks) |
| HealthScore.EngineOutputFitsSchema | lib/health-score.ts:66-69 | writing the result onto a valid project keeps it valid, and the status is a schema value |
| HealthScore.EmptyStoreExample | lib/health-score.ts:30-63 | with no check-ins and no risks the defaults give 56, Critical, breakdown (50, 60, 60, 0, 0) |
| HealthScore.SeedExample | scripts/seed.ts:76-106 | the seeded project with one {65%, 4} update and satisfaction 5 scores 84, On Track |
| HealthScore.RiskPenaltyExamples | lib/health-score.ts:52-63 | the same inputs with 2 and 4 open High risks give 64 At Risk and 44 Critical |
| HealthScore.ConfidenceAverageExample | lib/health-score.ts:37-39 | confidences 5, 5, 5, 1, 1 average to a component of 68 |
| CheckInsRoute.Stamped | app/api/checkins/route.ts:19-22 | the body's `user` is replaced by the caller and nothing else changes |
| CheckInsRoute.Post | app/api/checkins/route.ts:7-32 | 401 without a session; 500, store unchanged, when creation fails; otherwise one check-in is appended; a failed recompute gives 500 and keeps it; success gives 200 and the engine's write for that project |
| CheckInsRoute.CallerOwnsCheckIn | app/api/checkins/route.ts:19-22 | the stored check-in names the caller, whatever the body said, and keeps the body's fields |
| CheckInsRoute.InvalidBodyRefused | app/api/checkins/route.ts:19-22 | a body without project or type, or with a value out of range, is refused for any caller |
| CheckInsRoute.PostedCheckInIsRead | app/api/checkins/route.ts:19-25 | when the posted check-in's creation time (the clock, unless the body gave one) is later than every stored check-in's, a posted update becomes the first update the engine reads, and a posted feedback the feedback it reads |
| CheckInsRoute.BackdatedFeedbackNotRead | app/api/checkins/route.ts:19-25 | a client feedback whose body gives a `createdAt` earlier than a stored feedback of the same project is not the feedback the engine reads |
| RisksRoute.Get | app/api/risks/route.ts:8-39 | 401 iff no session; otherwise it lists exactly the stored risks of the requested project (any project if none is requested), only the caller's own for an employee, newest first; as a multiset the reply is exactly the stored risks meeting those conditions |
| RisksRoute.ListedMembers | app/api/risks/route.ts:21-30 | a risk is selected iff it is stored, belongs to the requested project (if any) and, for an employee, was reported by them; each is selected at most as often as stored |
| RisksRoute.QueryListsSelection | app/api/risks/route.ts:21-30 | the query object the handler builds selects exactly those risks |
| RisksRoute.Stamped | app/api/risks/route.ts:57-60 | the body's `user` is replaced by the reporter and nothing else changes |
| RisksRoute.Post | app/api/risks/route.ts:41-70 | 401 without a session; 403 for a role other than employee or admin; 500, store unchanged, when creation fails; otherwise one risk is appended, then a failed recompute gives 500 and success the engine's write |
| RisksRoute.ReportEffect | app/api/risks/route.ts:57-63 | an open High risk adds exactly 10 to the penalty and never raises the score; any other risk leaves the evaluation unchanged |
| ProjectsRoute.RecentCheckIn | app/api/projects/route.ts:46-49 | it finds a check-in of the project inside the window, or reports that there is none |
| ProjectsRoute.WithMissingFlag | app/api/projects/route.ts:41-54 | the flag is set iff no check-in of the project was created in the seven days before `now` |
| ProjectsRoute.Projects | app/api/projects/route.ts:51-54 | the projects of a reply, in order |
| ProjectsRoute.Listings | app/api/projects/route.ts:44-56 | the reply entries carry exactly the given projects, in order, each with its flag |
| ProjectsRoute.Get | app/api/projects/route.ts:8-63 | 401 iff no session; 500 iff the role is unknown; otherwise exactly the projects visible to the role (admin all, employee assigned, client own), as a permutation of them, sorted by ascending health, each with its missing-check-in flag |
| ProjectsRoute.VisibleMembers | app/api/projects/route.ts:20-38 | a listing with the multiset of the visible projects holds exactly those projects |
| ProjectsRoute.CheckInClearsFlag | app/api/projects/route.ts:46-53 | a check-in of the project inside the window (the boundary included) clears the flag |
| ProjectsRoute.FlagMonotone | app/api/projects/route.ts:41-53 | new check-ins never raise the flag; without them a flagged project stays flagged later |
| ProjectCard.IconBorderAndColourAgree | components/project-card.tsx:43-55 | icon, colour and the red border (score < 60) are three encodings of one 80/60 tier |
| ProjectCard.StatusBadgeDistinct | components/project-card.tsx:57-77 | each status has its own badge variant, and only Completed gets the fallback outline |
| ProjectCard.BadgeTextIsLabel | components/project-card.tsx:108 | replacing underscores leaves every stored label as it is |
| ProjectCard.Initials | components/project-card.tsx:81-87 | at most two characters, none a lower-case ASCII letter |
| ProjectCard.TwoWordInitials | components/project-card.tsx:81-87 | "first last" gives the upper-cased first letters of both words |
| ProjectCard.OneWordInitials | components/project-card.tsx:81-87 | one word gives its first letter; a leading space changes nothing |
| ProjectCard.AvatarNames | components/project-card.tsx:169 | the avatars are the first min(3, n) employees, in order |
| ProjectCard.OverflowBadge | components/project-card.tsx:181-187 | the "+N" badge is shown iff there are more than three employees |
| ProjectCard.EveryEmployeeCounted | components/project-card.tsx:169-187 | avatars plus N count every employee exactly once; the badge shows iff some employee has no avatar |
| HealthScoreDisplay.ConditionMatchesColour | components/health-score-display.tsx:16-40 | each condition text corresponds to exactly one gauge colour |
| HealthScoreDisplay.BadgeFacts | components/health-score-display.tsx:47-49 | the badge is `default` iff On Track, and its text is the stored label |
| ScoreTiers.ViewsAgree | components/health-score-display.tsx:16-40 | the card, its icon, the gauge and the gauge's text put every score in the same tier |
| ScoreTiers.WholeScoresAgreeWithStatus | lib/health-score.ts:56-63 | on whole-number scores the engine's status and the views' tier agree |
| ScoreTiers.StoredScoreTier | lib/health-score.ts:56-72 | the card's tier for the stored score matches the stored status iff the final score is outside [79.5, 80) and [59.5, 60) |
| ScoreTiers.EngineResultTier | lib/health-score.ts:56-72 | the same statement for every engine result |
| ActivityTimeline.Initials | components/activity-timeline.tsx:64-71 | at most two characters, none a lower-case ASCII letter |
| ActivityTimeline.InitialsFallback | components/activity-timeline.tsx:65 | three fixed examples: a missing name and the empty name show "U", and a name of two spaces shows nothing |
| ActivityTimeline.SameInitialsAsCard | components/activity-timeline.tsx:64-71 | for a non-empty name the feed and the card draw the same initials |
| ActivityTimeline.IconMatchesBackground | components/activity-timeline.tsx:83-219 | the progress icon (lines 213-219) and the box background (lines 83-87) agree iff a progress is recorded |
| ActivityTimeline.TextToneGaps | components/activity-timeline.tsx:88-90 | confidence 2.5 is emerald while 3 is amber; red needs confidence at most 2 |
| ActivityTimeline.ActorName | components/activity-timeline.tsx:130-133 | the first truthy name of user and reporter, else "Unknown"; never empty |
| ActivityTimeline.ActorInitials | components/activity-timeline.tsx:162 | the feed's avatar always matches the card's initials for the actor |
| ActivityTimeline.VerbNamesKind | components/activity-timeline.tsx:168-173 | for stored check-ins the verb is "posted an update" iff an employee update, and "shared client feedback" iff a client feedback |
| AdminPage.DashboardOf | app/admin/page.tsx:45-209 | the three counts are the sizes of the On Track, At Risk and Critical groups and fit the total; each section is drawn iff some listing has that status or lacks a check-in |
| AdminPage.GroupsPartition | app/admin/page.tsx:45-54 | each group holds exactly the listings with its status; the groups are disjoint and fit in the listing |
| AdminPage.MissingOverlapsStatus | app/admin/page.tsx:54 | a Critical project missing its check-in appears both in the missing list and in the critical group |
| AdminPage.ListingOrder | app/api/projects/route.ts:25 | the listing is health-sorted iff its projects are |
| AdminPage.GroupsKeepOrder | app/admin/page.tsx:45-54 | every group keeps the listing's ascending health order |
| ClientPage.AvgHealthScore | app/client/page.tsx:57-64 | an empty listing averages 0 |
| ClientPage.HealthSumBounds | app/client/page.tsx:61 | the sum lies between n·lo and n·hi |
| ClientPage.AverageWithin | app/client/page.tsx:57-64 | the average of a non-empty listing lies within any bounds of its scores |
| ClientPage.AverageInRange | app/client/page.tsx:57-64 | scores in 0..100 average into 0..100 |
| ClientPage.ActiveProjectsAsWrittenIsZero | app/client/page.tsx:66-68 | the active count as written is 0 for every listing |
| ClientPage.ActiveProjectsCounterexample | app/client/page.tsx:66-68 | one On Track project: written count 0, corrected count 1 |
| ClientPage.ActiveProjectsIsTwoGroups | app/client/page.tsx:66-68 | the corrected count is the admin On Track group plus the At Risk group, and at most the total |
| ClientPage.TrendMatchesCard | app/client/page.tsx:109-112 | the trend icon is emerald iff a card with the average score would be |
| ClientPage.FeedbackTarget | app/client/page.tsx:142-167 | the form targets a listed project iff the list is non-empty; on the health-sorted listing, the least healthy one |
| ClientPage.DashboardOf | app/client/page.tsx:57-167 | total; the active count as the page shows it, which is always 0; the corrected active count, the On Track plus At Risk groups, ≤ total; the average is `AvgHealthScore` of the listing, in 0..100 for valid scores; trend emerald iff average ≥ 80; the feedback target is `FeedbackTarget` of the listing, present iff projects exist |
| EmployeePage.ProjectsOf | app/employee/page.tsx:43-48 | a reply that is not ok fails; a `projects` member that is not an array reads as no projects |
| EmployeePage.OpenRisksCount | app/employee/page.tsx:54-65 | a failing query counts 0; otherwise at most the number of risks |
| EmployeePage.OpenRisksCountPositive | app/employee/page.tsx:57-60 | the counter is positive iff the caller reported an open risk, of any severity |
| EmployeePage.OpenRisksCountAfterReport | app/employee/page.tsx:57-60 | one more risk raises the counter by one iff it is open and the caller's |
| EmployeePage.PendingCheckIns | app/employee/page.tsx:79 | it holds exactly the listings flagged as missing a check-in |
| EmployeePage.FocusProject | app/employee/page.tsx:82 | the focus is absent iff no project is assigned; it is a listed project, and a pending one whenever any is pending |
| EmployeePage.BannerIffPending | app/employee/page.tsx:214 | the check-in banner is drawn iff some assigned project is missing a check-in |
| EmployeePage.FocusIsLeastHealthy | app/employee/page.tsx:79-82 | on the health-sorted listing the focus is the least healthy pending project, or the least healthy one if none is pending |
| EmployeePage.FocusIsAssigned | app/employee/page.tsx:200-233 | an employee's forms always target a project they are assigned to |
| EmployeePage.PageOf | app/employee/page.tsx:67-243 | it redirects iff the reply is not ok; otherwise the counters are the number of assigned projects, the number of pending check-ins and `OpenRisksCount`, the focus is `FocusProject` of the listing, and each highlight card and the banner are shown iff their counter is positive |
| RiskForm.Payload | components/risk-form.tsx:55-60 | the body carries the project and the fields as typed, untrimmed, with no reporter, status or creation time |
| RiskForm.FailureMessage | components/risk-form.tsx:63-75 | the server's non-empty `error`, else "Failed to log risk."; a thrown error's message, else "Something went wrong" |
| RiskForm.OutcomeOf | app/api/risks/route.ts:45-68 | each error status of the route carries its own `error` text |
| RiskForm.RouteErrorShown | components/risk-form.tsx:63-75 | after a refused reply the form shows a non-empty message, and "Forbidden" iff the route answered 403 |
| RiskForm.PayloadAccepted | components/risk-form.tsx:43-60 | a body that passed the form's check is accepted by the risk schema once stamped, and stored Open with the fields as typed, stamped with the store time |
| RiskForm.Form.constructor | components/risk-form.tsx:33-37 | empty fields, Medium severity, not loading, no error |
| RiskForm.Form.SetTitle | components/risk-form.tsx:102 | only the title changes |
| RiskForm.Form.SetMitigation | components/risk-form.tsx:190 | only the mitigation changes |
| RiskForm.Form.SetSeverity | components/risk-form.tsx:117-181 | the severity becomes one of the three labels; nothing else changes |
| RiskForm.FilledIffNotBlank | components/risk-form.tsx:43-46 | the form's check passes iff both the title and the mitigation hold a character other than white space |
| RiskForm.Form.Submit | components/risk-form.tsx:39-61 | a blank (after trimming) title or mitigation sets the required-fields message and sends nothing; otherwise it clears the error, starts loading and sends the body |
| RiskForm.Form.Finish | components/risk-form.tsx:63-79 | success resets the fields and Medium; a failure keeps the fields and shows its message; loading ends either way |
| ClientFeedbackForm.FilledIsPrefix | components/client-feedback-form.tsx:53 | the filled stars are always a prefix of 1..5 |
| ClientFeedbackForm.FilledShowsRating | components/client-feedback-form.tsx:53 | without hover the stars up to the rating are filled; with hover, the stars up to the hovered one |
| ClientFeedbackForm.HoverText | components/client-feedback-form.tsx:63-69 | there is a text iff a star 1..5 is hovered |
| ClientFeedbackForm.HoverTextInjective | components/client-feedback-form.tsx:64-68 | each hovered star has its own text |
| ClientFeedbackForm.StarRating.constructor | components/client-feedback-form.tsx:32 | nothing is hovered at first |
| ClientFeedbackForm.StarRating.Enter | components/client-feedback-form.tsx:49 | the hovered star is the one entered |
| ClientFeedbackForm.StarRating.Leave | components/client-feedback-form.tsx:42 | leaving the row clears the hover |
| ClientFeedbackForm.Payload | components/client-feedback-form.tsx:116-122 | a client-feedback body with both ratings and the comment, and no employee fields or creation time |
| ClientFeedbackForm.PayloadAccepted | components/client-feedback-form.tsx:113-122 | with both ratings in 1..5 the stamped body is accepted and stored as client feedback with those ratings, stamped with the store time |
| ClientFeedbackForm.Form.constructor | components/client-feedback-form.tsx:90-98 | both ratings 0, no comment, not loading, no success |
| ClientFeedbackForm.Form.RateSatisfaction | components/client-feedback-form.tsx:48 | only the satisfaction changes, to the star clicked |
| ClientFeedbackForm.Form.RateCommunication | components/client-feedback-form.tsx:48 | only the communication changes, to the star clicked |
| ClientFeedbackForm.Form.SetComments | components/client-feedback-form.tsx:198 | only the comment changes |
| ClientFeedbackForm.Form.Submit | components/client-feedback-form.tsx:101-123 | an alert and no request iff a rating is 0; otherwise loading and the body, with both ratings in 1..5 |
| ClientFeedbackForm.Form.Finish | components/client-feedback-form.tsx:125-142 | an ok reply sets the success state; the ratings and comment are kept; loading ends either way |
| ClientFeedbackForm.Form.ResetAfterDelay | components/client-feedback-form.tsx:132-137 | the timer clears the success state and puts the form back to 0, 0, "" |

## Left out

- Rendering (JSX, CSS classes, icons, layout) is left out. Only the values the markup branches on are modelled.
- `fetch`, cookies, `redirect` and `router.refresh()` are left out. The page models take the reply as a parameter, and a redirect is a `Redirect` value.
- Session lookup is left out: lib/auth.ts is not part of this model, and the user is a parameter.
- The database connection is left out: lib/db.ts and lib/mongodb are not part of this model.
- Concurrency is left out. `Promise.all` and concurrent requests are modelled as one sequential step.
- `populate` is left out. Projects carry identifiers, not user names.
- Mongoose casting of the request's strings to ObjectIds is left out.
- The order of equal sort keys is left out. The model uses a stable sort, while MongoDB's order of ties is unspecified.
- Floating-point rounding is left out. Numbers are exact reals, so `79.5` really is 79.5.
- Unicode case mapping and UTF-16 code units are left out. `toUpperCase` maps only ASCII letters.
- Calendar arithmetic is left out. `setDate(getDate() - 7)` is a fixed 7-day window of 604800000 ms, which ignores daylight-saving shifts.
- The gauge's `strokeDashoffset` is left out, because it is floating-point arithmetic on `Math.PI`.
- `setTimeout` timing is left out. The reset is a method the caller invokes.
- The `alert` and `console.error` calls are left out. The alert is a returned value.
- The project detail route (app/api/projects/[id]/route.ts) and its page are left out. They only read what the modelled routes write.
- The check-in form (components/checkin-form.tsx) is left out. It is outside the modelled core; its posts go through `CheckInsRoute.Post`.
- RisksRoute.Get: a failing database query (status 500) is not modelled. The listing itself cannot fail in the model.
- ProjectsRoute.Get: database failures other than the undefined list for an unknown role are not modelled.
- ProjectModel: `healthScore` is an integer, while the schema field is any Number. The only writer in the modelled core is the engine, which stores `Math.round` values.
- RisksRoute.Get: an empty `projectId` query string is falsy in the source and is modelled as `None`.
- ClientPage.AvgHealthScore: its own contract states only the empty case. The bounds are stated by `AverageWithin` and `AverageInRange`.
- RiskForm.Form.Submit: the disabled inputs and button while loading are not modelled. A submit while loading sends again.
- ClientFeedbackForm.Form.Submit: as for the risk form, a submit while loading is not excluded.
- A `response.json()` that throws on a non-JSON error reply reaches the risk form as a thrown error. That is the `Thrown` outcome, not a separate case.
- The activity timeline shows a red progress icon but an emerald background for an update with no progress. `ActivityTimeline.IconMatchesBackground` states this; it is not listed as a finding, since such updates may be intended to render neutrally.

## Findings

| source | as written | input that shows it | evidently intended | confidence | as-written member | corrected member |
|---|---|---|---|---|---|---|
| app/client/page.tsx:66-68 | the active-project count compares `status` with "on_track" and "at_risk", but the stored labels are "On Track" and "At Risk", so the count is always 0 | one project with status On Track: the page reports 0 active projects | count the projects whose status is On Track or At Risk | not executed | ClientPage.ActiveProjectsAsWrittenIsZero | ClientPage.ActiveProjectsIsTwoGroups |
