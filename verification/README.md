# BuildBrief core, modelled in Dafny

BuildBrief turns an app idea into a build specification through a guided
interview. An Express server keeps one in-memory session per project. Each
answer is sent, together with the session state, to a language model that
picks the next screen. A React client renders that screen from one of seven
UI templates.

This project models that core as pure functions over immutable data:

- **Server side**
  - the session store and its shallow merge (`State`);
  - the wire types (`Types`);
  - the request schemas (`Validation`);
  - the four API routes and the health endpoint (`Handlers`);
  - the dynamic system prompt (`Prompts`);
  - the fixed-window rate limiter (`RateLimiter`);
  - the error classes and the global error handler (`Errors`);
  - the structured logger (`Logger`).
- **Client side**
  - the template dispatcher (`TemplateRenderer`);
  - the answer screens (`Choice`, `ChoiceCosmos`, `FreeText`, `ManualAction`);
  - the blog listing (`Blog`), the pricing page (`Pricing`) and the theme switcher (`ThemeToggle`);
  - the agent plan timeline of the earlier "cosmos" design (`AgentTimeline`).
- **Shared helpers**
  - `Wrappers` (Option/Result);
  - `Text` (JavaScript `trim`, `split`, `join`, `includes`, case mapping, decimal printing);
  - `Json` (dynamic values, JavaScript truthiness, `||`, member access).

**How the outside world enters the model**

- The language model (`getNextStep`) is an oracle parameter of type `(ProjectState, string) -> AIResponse`.
- `randomUUID()` is a `freshId` parameter, and `Date.now()` is a `now` parameter.
- `JSON.stringify` of a log context is a `stringify` parameter.
- `JSON.parse` of the agent plan is the `Parsed` datatype.

**Where the model follows the code rather than the design text**

- The schema length bounds are checked on the raw string, before trimming. So `"  ab  "` is accepted as the idea `"ab"`.
- After init and one answer the history has two entries, so the answer's progress is 3, not 2.
- The model's state updates may replace `history` wholesale. History is therefore not append-only.
- Init always reports a progress total of 10.
- From the year 10000 on, `toISOString` prints an expanded year (`+010000-…`), which the health schema's date-time check rejects. The health reply matches its own schema only in four-digit years.
- In the multi-choice picker, toggling a value twice restores the selection only when the value was absent or already last. Otherwise the value moves to the end.

## Model

| member | source | states |
|---|---|---|
| State.CreateSession | server/src/state.ts:7-22 | adds exactly the new id to the store (one more key when fresh), leaves every other session untouched, and the new session holds the idea, null profile fields, empty collections and is not complete |
| State.GetSession | server/src/state.ts:25-27 | finds a session exactly when its id is stored, and returns the stored state |
| State.MergeIsShallow | server/src/state.ts:33 | a key present in the update replaces the stored value as a whole (history and decision lists are not appended to); an absent key keeps the stored value |
| State.MergeNothing | server/src/state.ts:33 | merging an empty update is the identity |
| State.MergeIdempotent | server/src/state.ts:33 | applying the same update twice equals applying it once |
| State.MergeCombine | server/src/state.ts:33 | two successive merges equal one merge of the combined update, later keys winning |
| State.MergeEverything | server/src/state.ts:33 | an update naming every key replaces the whole state |
| State.UpdateSession | server/src/state.ts:29-41 | fails with 'Session not found' exactly for an unknown id and then leaves the store as it was; otherwise stores the merged state under the same keys, changes no other session, and a later lookup returns what was returned |
| State.UpdateNothing | server/src/state.ts:29-41 | updating a stored session with an empty update leaves the store unchanged |
| Types.ParseTemplate | server/src/types.ts:15-22 | a string reads as a template exactly when it is one of the seven wire names, and the template's name is that string |
| Types.TemplatesAreSeven | server/src/types.ts:15-22 | there are seven distinct template names, and name and parse are inverse on templates |
| Types.IdeaAnalysisIsNotATemplate | server/src/prompts.ts:368 | the template the prompt demands on the first turn is not one of the seven templates |
| Types.HistoryJson | server/src/types.ts:10 | the JSON history has one object per history entry, in order, each with exactly the keys `question` and `answer` holding that entry's strings |
| Validation.UuidText | server/src/validation.ts:36 | writing 32 digits with dashes gives a 36-character text |
| Validation.UuidDigits | server/src/validation.ts:36 | removing the four dashes of a 36-character text leaves 32 characters |
| Validation.UuidTextIsUuid | server/src/validation.ts:36 | any 32 hexadecimal digits in 8-4-4-4-12 groups pass the UUID test and give back the same digits |
| Validation.UuidDigitsRoundTrip | server/src/validation.ts:36 | every text passing the UUID test consists of hexadecimal digits and is rebuilt from them |
| Validation.ReadString | server/src/validation.ts:22 | a field reads as a string exactly when it is present and a string; an issue names the field |
| Validation.LengthIssues | server/src/validation.ts:23-24 | no issue exactly when the raw length is within the bounds, and every issue names the field |
| Validation.BoundedTrimmed | server/src/validation.ts:22-25 | accepted exactly when the raw string is within the bounds, and the result is the trimmed string, no longer than the raw one; a refusal carries at least one issue |
| Validation.UuidField | server/src/validation.ts:35-36 | accepted exactly when the field is a string in UUID form, kept unchanged |
| Validation.ParseInit | server/src/validation.ts:21-29 | accepts exactly an idea of 5 to 2000 raw characters that is not all whitespace; the idea is trimmed, non-empty and at most 2000 characters; a refused idea carries the 'cannot be empty after trimming' issue exactly when it is empty or is whitespace within the bounds, since the refinement still runs on the untrimmed value after a failed length check |
| Validation.EmptyIdeaIssues | server/src/validation.ts:23-28 | an empty idea reports two issues: the minimum length, then 'cannot be empty after trimming' |
| Validation.ParseAnswer | server/src/validation.ts:34-41 | accepts exactly a UUID project id and an answer of 1 to 5000 raw characters; the answer is trimmed and may become empty |
| Validation.ParseRefine | server/src/validation.ts:46-53 | accepts exactly a UUID project id and comments of 5 to 3000 raw characters; the comments are trimmed |
| Validation.ParseProjectId | server/src/validation.ts:58-61 | accepts exactly a UUID, unchanged, and otherwise reports the single 'Project ID must be a valid UUID' issue on `id` |
| Validation.ShortIdeaAfterTrim | server/src/validation.ts:23-25 | an idea with two visible characters padded to six passes and becomes the two-character idea, because bounds precede the trim |
| Validation.BlankAnswerAccepted | server/src/validation.ts:37-40 | a whitespace-only answer within the bounds is accepted as the empty answer |
| Validation.BlankIdeaRefused | server/src/validation.ts:26-28 | a whitespace-only idea within the bounds is refused with only the 'cannot be empty after trimming' issue |
| Validation.Padded | server/src/index.ts:74 | the zero-padded number has exactly the requested width and only digits |
| Validation.PaddedRoundTrip | server/src/index.ts:74 | reading the padded digits back gives the number, when it fits the width |
| Validation.YearText | server/src/index.ts:74 | years 0 to 9999 print as four digits, later years as a plus sign and six digits |
| Validation.ToIsoString | server/src/index.ts:74 | for a valid date the timestamp has the 24 characters of the ISO form in four-digit years, and 27 characters starting with `+` from the year 10000 on |
| Validation.IsoStringReadsBack | server/src/index.ts:74 | in four-digit years every field of the timestamp reads back to the date field it was printed from |
| Validation.IsoStringIsDateTime | server/src/validation.ts:68 | a printed timestamp passes the schema's date-time check exactly when the year has four digits |
| RateLimiter.CreateConfig | server/src/rateLimiter.ts:38-42 | an omitted option falls back to the one-minute window and 60 requests; a given option wins |
| RateLimiter.CeilDiv | server/src/rateLimiter.ts:93 | the result is the least integer whose multiple of the divisor reaches the dividend |
| RateLimiter.Refreshed | server/src/rateLimiter.ts:80-89 | a missing or expired entry is replaced by a zero count whose window starts now; a live entry is kept |
| RateLimiter.Check | server/src/rateLimiter.ts:76-124 | rejects exactly when the refreshed count has reached the maximum, with the remaining window in whole seconds; otherwise counts the request and reports the remaining allowance; only the request's key changes |
| RateLimiter.CheckCounts | server/src/rateLimiter.ts:92-116 | an accepted request adds one to its live count, a rejected one adds nothing, and no count ever exceeds the maximum |
| RateLimiter.CheckKeepsWindows | server/src/rateLimiter.ts:83-89 | as the clock advances, no window ends more than one window length after the current time |
| RateLimiter.RetryAfterBounds | server/src/rateLimiter.ts:93 | a rejected client is told to wait at least one second and at most the window in seconds |
| RateLimiter.Burst | server/src/rateLimiter.ts:76-124 | of n simultaneous requests at most n are accepted |
| RateLimiter.BurstAccepts | server/src/rateLimiter.ts:92-116 | from count c, exactly min(n, max - c) of n simultaneous requests pass, and the counter ends at c plus that number in the same window |
| RateLimiter.CheckWithinWindow | server/src/rateLimiter.ts:92-116 | one more request is accepted exactly while the count is below the maximum, and the stored count follows |
| RateLimiter.FullWindowThenRejected | server/src/rateLimiter.ts:83-113 | a fresh key gets the full allowance at once, and the next request is rejected with a wait of the whole window |
| RateLimiter.LimiterConfigs | server/src/rateLimiter.ts:130-149 | the AI, standard and lenient limiters allow 10, 60 and 120 requests per minute |
| RateLimiter.EleventhAiRequestRejected | server/src/rateLimiter.ts:130-133 | ten AI requests from a fresh client pass within a minute, and the eleventh is told to retry in 60 seconds |
| RateLimiter.Sweep | server/src/rateLimiter.ts:47-54 | keeps exactly the entries whose window has not ended, unchanged |
| RateLimiter.SweepInvisible | server/src/rateLimiter.ts:47-54 | sweeping never changes the decision of any later request |
| RateLimiter.DefaultKey | server/src/rateLimiter.ts:59-67 | the client is the trimmed first X-Forwarded-For item, else the IP, else the socket address, else 'unknown', each case stated; the key joins it to the path |
| RateLimiter.ClientCandidate | server/src/rateLimiter.ts:61 | a forwarded client exists exactly when the trimmed first comma-separated item is non-empty |
| RateLimiter.FirstNonEmpty | server/src/rateLimiter.ts:61-64 | JavaScript's chained or-operator: the first present non-empty candidate, and none exactly when all are missing or empty |
| RateLimiter.DefaultKeyEndsWithPath | server/src/rateLimiter.ts:66 | every key ends with ':' and the path, so different routes never share a counter |
| Logger.Priority | server/src/logger.ts:50-56 | priorities lie between 0 and 4 |
| Logger.ParseLevel | server/src/logger.ts:12 | a name parses only to the level of that name |
| Logger.LevelsOrdered | server/src/logger.ts:50-56 | the five levels are strictly ordered debug < info < warn < error < fatal and every name parses back to its level |
| Logger.MinLevelSetting | server/src/logger.ts:41 | a non-empty LOG_LEVEL is taken as is, and otherwise the minimum is 'info' |
| Logger.ShouldLogLaws | server/src/logger.ts:88-90 | filtering is monotone in the level, fatal passes any valid minimum, a level passes a named minimum exactly when its priority is not lower, and an unknown minimum silences everything |
| Logger.DefaultMinimumIsInfo | server/src/logger.ts:41 | with LOG_LEVEL unset, everything but debug is logged |
| Logger.DefaultConfig | server/src/logger.ts:40-45 | console on, file off, colours exactly outside production |
| Logger.RequestIdPart | server/src/logger.ts:100-102 | the request id tag is empty exactly when the id is missing or empty |
| Logger.ContextPart | server/src/logger.ts:106-108 | the context tail is empty exactly when the context is missing or has no key |
| Logger.ErrorPart | server/src/logger.ts:110-115 | the error tail is empty exactly when no error is given |
| Logger.FormatEntry | server/src/logger.ts:95-118 | every line starts with the timestamp and level header |
| Logger.LevelTags | server/src/logger.ts:98 | the level tags are the upper-case level names |
| Logger.FormatBare | server/src/logger.ts:98-104 | without request id, context and error the line is the header, a space and the message |
| Logger.FormatRequestId | server/src/logger.ts:100-102 | a non-empty request id is inserted right after the header and changes nothing else; an empty one prints as none |
| Logger.FormatEmptyContext | server/src/logger.ts:106 | an empty context prints exactly like no context |
| Logger.FormatErrorTail | server/src/logger.ts:110-115 | with a stack the line ends with a newline and the stack; without one it ends with the error marker and the message |
| Logger.ColorCode | server/src/logger.ts:61-68 | each colour is a five-character ANSI select-graphic escape |
| Logger.ColorCodesDistinct | server/src/logger.ts:61-68 | different levels have different colours |
| Logger.Colorize | server/src/logger.ts:123-126 | disabled colouring is the identity; enabled colouring wraps the text in the level's colour and the reset code |
| Logger.Uncolorize | server/src/logger.ts:123-126 | stripping a colour never lengthens a line |
| Logger.ColorizeRoundTrip | server/src/logger.ts:123-126 | the plain line is recovered from the coloured one |
| Logger.ChannelFor | server/src/logger.ts:138-142 | error and fatal go to console.error, warn to console.warn, debug and info to console.log, each exactly |
| Logger.Write | server/src/logger.ts:131-151 | a filtered entry produces no output; otherwise the console gets it exactly when enabled, on the level's channel, and the file gets it exactly when a file is configured |
| Logger.WriteSameLine | server/src/logger.ts:144-149 | the file receives the uncoloured console line plus a newline |
| Logger.ChildContext | server/src/logger.ts:202-205 | the merged context has the keys of both; the entry's own keys win over the defaults |
| Logger.ChildWithoutDefaults | server/src/logger.ts:198-208 | a child with no defaults writes exactly what its parent writes |
| Logger.GrandchildContext | server/src/logger.ts:202-205 | a child of a child acts as one child whose defaults are the outer ones overridden by the inner ones |
| Errors.NewAppError | server/src/errors.ts:12-23 | status, message and details are kept, and the code defaults to INTERNAL_ERROR |
| Errors.ValidationError | server/src/errors.ts:28-33 | status 400 with code VALIDATION_ERROR, keeping message and details |
| Errors.NotFoundMessage | server/src/errors.ts:40 | '<resource> not found' with ' (<id>)' inserted exactly for a non-empty id |
| Errors.NotFoundError | server/src/errors.ts:38-43 | status 404, code NOT_FOUND, no details |
| Errors.RateLimitError | server/src/errors.ts:48-53 | status 429, 'Too many requests', the retry delay as the only detail |
| Errors.ServiceUnavailableError | server/src/errors.ts:58-63 | status 503 with the default message only when none is given |
| Errors.AIServiceError | server/src/errors.ts:68-73 | status 502 with the default message only when none is given |
| Errors.Classify | server/src/errors.ts:102-121 | application errors keep their fields; a ZodError becomes 400 with its issues; a refused connection becomes 503; anything else becomes a masked 500 |
| Errors.ForeignErrorsAreMasked | server/src/errors.ts:112-121 | an error the application did not raise gets one of three fixed statuses and messages, and only a ZodError carries details |
| Errors.AppErrorClasses | server/src/errors.ts:28-73 | every application error class keeps its status and code through the handler |
| Errors.LogLevelFor | server/src/errors.ts:124 | server errors (500 and up) log as error and all others as warn |
| Errors.RequestIdOrUnknown | server/src/errors.ts:99 | the request id, or 'unknown' when missing or empty; never empty |
| Errors.LogContext | server/src/errors.ts:128-135 | the log context names status, code, path, method and request id, and has a stack exactly for a foreign error with a stack |
| Errors.LoggedError | server/src/errors.ts:127 | only errors the application did not raise reach the logger's error slot |
| Errors.LogEntry | server/src/errors.ts:124-137 | the intended log entry: level by status, the full context and the request id each in its own slot, an error only at error level |
| Errors.LogEntryAsWritten | server/src/errors.ts:124-137 | with the warn method's three-parameter signature, a 4xx entry gets '[object Object]' as request id and loses the handler's context |
| Errors.WarnSignatureMismatch | server/src/errors.ts:124-137 | the two agree for 5xx; for 4xx the request id is lost, and a 404 for an unknown project is logged without context |
| Errors.DetailsJson | server/src/errors.ts:145 | the details object keeps every defined member and nothing else |
| Errors.ErrorMember | server/src/errors.ts:140-154 | message and code always; details exactly when defined and non-empty; the stack exactly in development when there is one; no other key |
| Errors.ErrorBody | server/src/errors.ts:140-150 | the envelope has exactly the members success (false), error, timestamp and requestId |
| Errors.HandleError | server/src/errors.ts:93-157 | corrected: the status is the classified one; the envelope carries the classified message and code, details exactly when non-empty, the stack exactly in development, the timestamp and the request id or 'unknown'; the log entry reads `Error <status>: <message>`, is at error level exactly for a status of 500 or more, carries the request id in its own slot and in the context, and hands over the thrown value only for a foreign server error |
| Errors.HandleErrorAsWritten | server/src/errors.ts:93-157 | as written: the same status, envelope, level and message as the corrected handler, the same entry for server errors, and every client error logged under the request id `[object Object]` |
| Errors.NoStackOutsideDevelopment | server/src/errors.ts:152-154 | outside development no stack reaches the client, and the envelope never reports success |
| Errors.RateLimitEnvelope | server/src/errors.ts:48-53 | a rate-limit rejection answers 429 with the retry delay in the details and logs a warning |
| Errors.RouteNotFound | server/src/errors.ts:162-179 | 404 ROUTE_NOT_FOUND naming method and path, with the request id or 'unknown', logged as a warning with method and path |
| Handlers.IssuesJson | server/src/index.ts:107-110 | one JSON issue per validation issue |
| Handlers.Invalid | server/src/index.ts:106-111 | a failed schema becomes a 400 VALIDATION_ERROR with the route's message |
| Handlers.ProjectNotFound | server/src/index.ts:175-177 | an unknown project is a 404 NOT_FOUND |
| Handlers.Init | server/src/index.ts:100-152 | an invalid body throws and changes nothing; a valid one adds exactly the fresh session and leaves the others alone |
| Handlers.InitIdea | server/src/index.ts:113-150 | once the idea is valid, the fresh session is added, whether or not the model errs, and every other session is kept as it was |
| Handlers.InitSuccess | server/src/index.ts:133-150 | on success the history is the idea alone, whatever the model proposed, the model's other keys overwrite the initial state, and the reply is 201 with progress 1 of 10 |
| Handlers.InitAiErrorKeepsSession | server/src/index.ts:118-131 | when the model errs, init throws 502 AI_ERROR but the created session stays with an empty history |
| Handlers.ProgressLimit | server/src/index.ts:205-213 | the answer handler's progress total lies between 5 and 10 |
| Handlers.ProgressLimitIsPromptLimit | server/src/index.ts:205-213 | the progress total equals the limit the prompt announces for the same state |
| Handlers.Answer | server/src/index.ts:158-232 | an invalid body throws and changes nothing, no session is added or removed, and no other project changes |
| Handlers.AnswerUnknownProject | server/src/index.ts:174-177 | an answer for an unknown project is refused with 404 and changes nothing |
| Handlers.AnswerKeptOnAiError | server/src/index.ts:185-197 | the answer is recorded before the model is consulted, so it stays in the history when the model fails and 502 is thrown |
| Handlers.AnswerProgress | server/src/index.ts:199-219 | a successful answer replies 200 with progress one past the history after the model's updates, over the dynamic limit |
| Handlers.Refine | server/src/index.ts:238-287 | an invalid body or a thrown error leaves the store unchanged, and the session set never changes |
| Handlers.RefineUnknownProject | server/src/index.ts:254-257 | a well-formed refinement for an unknown project is refused with 404 NOT_FOUND naming the id, and changes nothing |
| Handlers.RefineOnlyAppends | server/src/index.ts:262-277 | a refinement appends exactly one USER_REFINEMENT entry, only on success, and never merges the model's updates |
| Handlers.GetProject | server/src/index.ts:293-319 | a malformed id is a validation error, an unknown one is 404, a known one returns the stored state |
| Handlers.InitThenGet | server/src/index.ts:297-317 | after a successful init under a well-formed id, fetching the project returns the stored state with the idea as its only history entry |
| Handlers.FirstAnswerIsQuestionThree | server/src/index.ts:215-219 | the first answer after init reports progress 3 when the model leaves the history alone |
| Handlers.LimiterFor | server/src/index.ts:100-101 | the three model-backed routes use the AI limiter and the project lookup uses the standard one |
| Handlers.Handle | server/src/index.ts:100-102 | the request is counted by its route's limiter under the key client:path |
| Handlers.HandleLeavesSessions | server/src/rateLimiter.ts:107-113 | a rate-limited request answers 429 and touches no session; a project lookup never touches one |
| Handlers.Health | server/src/index.ts:68-82 | for a valid date the health reply has status 'ok' and the version, '1.0.0' when the package version is unset |
| Handlers.HealthMatchesSchema | server/src/validation.ts:66-75 | a health reply satisfies the health schema exactly while the clock reads a four-digit year |
| Prompts.QuestionNumber | server/src/prompts.ts:320 | the question number is one more than the length of an array history, and 1 when the history is missing or is neither an array nor a string |
| Prompts.StateQuestionNumber | server/src/prompts.ts:318-341 | for the JSON of a session state the question number is the history length plus 1, the first turn is the one with an empty history, and the early exit needs three answered turns and all but at most one stored critical decision |
| Prompts.DynamicLimit | server/src/prompts.ts:324-333 | the limit is 5 plus 1 for a long idea, 2 for several roles and 2 for integrations, and lies in 5..10 |
| Prompts.CountTruthy | server/src/prompts.ts:337 | the count is at most the number of names; all names count exactly when all are truthy, none exactly when none is |
| Prompts.CountTruthyAppend | server/src/prompts.ts:337 | the count of a concatenation is the sum of the counts |
| Prompts.CountTruthySingle | server/src/prompts.ts:337 | a single name counts 1 exactly when its decision is truthy |
| Prompts.Flag | server/src/prompts.ts:337 | 1 exactly for a key whose decision is truthy, 0 otherwise |
| Prompts.CriticalResolved | server/src/prompts.ts:336-337 | the count is the number of truthy decisions among user_roles, core_workflow, data_model and auth_method, so at most 4 |
| Prompts.EarlyExitRule | server/src/prompts.ts:336-338 | the early exit is offered exactly from question 4 on when at most one of the four critical decisions is still open |
| Prompts.BannerFor | server/src/prompts.ts:385-393 | hard stop exactly at or past the limit, final question exactly one turn before, nothing earlier |
| Prompts.PlanFor | server/src/prompts.ts:320-341 | first turn exactly at question 1, early exit exactly with 3 critical decisions from question 4, hard stop exactly at the limit |
| Prompts.FirstTurnFlags | server/src/prompts.ts:338-341 | the first turn never offers an early exit or a banner |
| Prompts.BannerTextShape | server/src/prompts.ts:385-393 | only the hard-stop banner carries the hard-stop heading and it names the limit; no banner is the empty text |
| Prompts.FirstTurnSection | server/src/prompts.ts:365-378 | the first-turn block is present exactly on the first turn |
| Prompts.FirstTurnReminderLine | server/src/prompts.ts:403 | the first-turn reminder is present exactly on the first turn |
| Prompts.EarlyExitSection | server/src/prompts.ts:380-383 | the early-exit block is present exactly when an early exit applies |
| Prompts.Quoted | server/src/prompts.ts:353 | the quoted answer contains the answer |
| Prompts.GetSystemPrompt | server/src/prompts.ts:318-353 | the prompt starts with the fixed instructions and contains the state JSON and the quoted answer |
| Prompts.PromptStartsWithInstructions | server/src/prompts.ts:343 | the prompt begins with the fixed instructions |
| Prompts.PromptQuotesInputs | server/src/prompts.ts:349-353 | the prompt contains the state and the quoted answer verbatim |
| Prompts.PromptFirstTurn | server/src/prompts.ts:365-378 | a first-turn plan yields the first-turn block and reminder |
| Prompts.PromptEarlyExit | server/src/prompts.ts:380-383 | an early-exit plan yields the early-exit block |
| Prompts.PromptBanner | server/src/prompts.ts:385-393 | the chosen banner appears in the prompt |
| Prompts.PromptBlocks | server/src/prompts.ts:318-406 | from the parsed state: the first turn gets its block and reminder, an early exit its block, the hard stop appears at the limit and the final-question warning one turn before |
| TemplateRenderer.DispatchCoversTemplates | client/src/components/TemplateRenderer.tsx:47-64 | the switch gives every template its screen, and falls through to 'Unknown template: ' plus the name exactly for strings that name no template |
| TemplateRenderer.RendererCorners | client/src/components/TemplateRenderer.tsx:58-62 | summary and final_output share the final-output screen, and the first-turn 'idea_analysis' template is unknown to the renderer |
| TemplateRenderer.Notices | client/src/components/TemplateRenderer.tsx:28-45 | one notice per automatic decision, in order, titled with the Auto-Decision prefix; none when the list is missing or empty |
| TemplateRenderer.Render | client/src/components/TemplateRenderer.tsx:17-67 | the screen follows the template and the notices count the automatic decisions |
| TemplateRenderer.RenderCosmos | client/src/_backup_cosmos_design/components/TemplateRenderer.tsx:19-50 | the sidebar receives the decisions or the empty list, and the screen follows the template |
| TemplateRenderer.DesignsAgree | client/src/_backup_cosmos_design/components/TemplateRenderer.tsx:26-48 | loading changes nothing, both designs pick the same screen, and the notices list exactly the sidebar's decisions |
| Choice.Without | client/src/components/templates/Choice.tsx:19 | removing a value keeps exactly the other values, and shortens the selection when the value was present |
| Choice.Toggle | client/src/components/templates/Choice.tsx:14-24 | single choice selects only the value; multi choice flips membership of the value alone, appending it when absent |
| Choice.Submit | client/src/components/templates/Choice.tsx:26-30 | an answer is sent exactly when Confirm is enabled, and a single selection is sent as is |
| Choice.WithoutKeepsDistinct | client/src/components/templates/Choice.tsx:19 | removing a value keeps the selection free of duplicates |
| Choice.ToggleKeepsDistinct | client/src/components/templates/Choice.tsx:14-24 | toggling never creates a duplicate selection |
| Choice.WithoutAbsent | client/src/components/templates/Choice.tsx:19 | removing an absent value changes nothing |
| Choice.WithoutLast | client/src/components/templates/Choice.tsx:19-21 | removing a just-appended value restores the selection |
| Choice.ToggleTwiceRestores | client/src/components/templates/Choice.tsx:18-22 | toggling an unselected value twice restores the selection |
| Choice.ToggleTwiceMovesToEnd | client/src/components/templates/Choice.tsx:18-22 | toggling a selected value twice moves it to the end, so the selection is restored only when the value was last |
| Choice.ClickOrder | client/src/components/templates/Choice.tsx:21 | clicking distinct values in multi choice selects them in click order |
| Choice.SingleKeepsLastClick | client/src/components/templates/Choice.tsx:15-16 | in single choice only the last click counts and is what Confirm sends |
| Choice.SubmitListsSelections | client/src/components/templates/Choice.tsx:28 | the joined answer starts with the first selection and contains every selection |
| ChoiceCosmos.ToggleOption | client/src/_backup_cosmos_design/components/templates/Choice.tsx:21-35 | clicking an option clears and hides the custom answer and toggles the selection as in the current design |
| ChoiceCosmos.CustomInputChange | client/src/_backup_cosmos_design/components/templates/Choice.tsx:37-43 | typing stores the text; non-empty text in single choice clears the selection, and otherwise the selection is kept |
| ChoiceCosmos.OpenCustom | client/src/_backup_cosmos_design/components/templates/Choice.tsx:108 | opening the custom answer shows the input and keeps the selection and text |
| ChoiceCosmos.Submit | client/src/_backup_cosmos_design/components/templates/Choice.tsx:45-59 | sends exactly when something can be submitted: a blank custom answer sends the joined selection; otherwise single choice or an empty selection sends the trimmed text, and multi choice appends it to the selection |
| ChoiceCosmos.MultiCustomExtendsSelection | client/src/_backup_cosmos_design/components/templates/Choice.tsx:48-50 | in multi choice the custom text is one more item after the joined selections |
| ChoiceCosmos.SingleSelectsAtMostOne | client/src/_backup_cosmos_design/components/templates/Choice.tsx:26-27 | after any interaction single choice has at most one selected option, and it was clicked |
| ChoiceCosmos.SingleChoiceAnswer | client/src/_backup_cosmos_design/components/templates/Choice.tsx:45-57 | a single-choice answer is the trimmed custom text or exactly one clicked option, never a combination |
| FreeText.Submit | client/src/components/templates/FreeText.tsx:13-15 | sends exactly when Next is enabled, sends the untrimmed value, and that value has a non-whitespace character |
| FreeText.TrimmedHeadOccurs | client/src/components/templates/FreeText.tsx:14 | a value that is not blank holds the first character of its trimmed form, a non-whitespace character |
| FreeText.OnKeyDown | client/src/components/templates/FreeText.tsx:32-37 | the newline is suppressed exactly for Enter without Shift, and every other key sends nothing |
| FreeText.EnterMatchesNext | client/src/_backup_cosmos_design/components/templates/FreeText.tsx:37-47 | Enter sends exactly what Next sends, Shift+Enter never sends, and neither sends a blank value |
| ManualAction.ClickConfirm | client/src/components/templates/ManualAction.tsx:30 | a click flips the tick |
| ManualAction.Continue | client/src/components/templates/ManualAction.tsx:56-62 | Continue sends exactly when enabled, and always 'Action Completed' |
| ManualAction.ConfirmClicks | client/src/components/templates/ManualAction.tsx:30 | two clicks restore the tick; one click from the fresh screen enables Continue and two disable it |
| ManualAction.Either | client/src/components/templates/ManualAction.tsx:15 | JavaScript's or-operator on optional strings: the first when it is a non-empty string, the second otherwise |
| ManualAction.FallbacksPickASource | client/src/components/templates/ManualAction.tsx:15-25 | the heading is the question text or the action title, the latter only when the question text is empty; the body likewise falls back from the explanation |
| Blog.Keep | client/src/pages/BlogPage.tsx:190 | filtering keeps exactly the posts satisfying the test, and never more posts |
| Blog.KeepIsSubsequence | client/src/pages/BlogPage.tsx:190 | filtering keeps the catalogue order |
| Blog.OfCategory | client/src/pages/BlogPage.tsx:191 | keeps exactly the posts of one category |
| Blog.NonFeatured | client/src/pages/BlogPage.tsx:198 | keeps exactly the posts that are not featured |
| Blog.Filtered | client/src/pages/BlogPage.tsx:190-195 | keeps exactly the posts matching both the category and the search |
| Blog.FeaturedPost | client/src/pages/BlogPage.tsx:197 | `find` semantics: the result is the first featured post of the catalogue, every post before it being unfeatured; none exactly when no post is featured |
| Blog.Noun | client/src/pages/BlogPage.tsx:302 | 'article' exactly for one post |
| Blog.EmptyFiltersKeepAll | client/src/pages/BlogPage.tsx:187-195 | the untouched page lists every post |
| Blog.RenderKeepsOrder | client/src/pages/BlogPage.tsx:306-319 | the grid shows only counted posts, in catalogue order |
| Blog.CategoryTabFilter | client/src/pages/BlogPage.tsx:190-195 | with an empty search a category tab other than All keeps exactly its category's posts, in order |
| Blog.FeaturedPostCountedButHidden | client/src/pages/BlogPage.tsx:197-198 | as written, under a search or a category tab a matching featured post is counted but shown nowhere |
| Blog.ProductTabHidesFeaturedPost | client/src/pages/BlogPage.tsx:275 | on the Product tab the featured post 1 is counted but not displayed |
| Blog.RenderAsWritten | client/src/pages/BlogPage.tsx:190-326 | as written: the count is the number of matching posts, the empty state appears exactly for none, the featured section shows the featured post exactly on the untouched page, and the grid holds exactly the matching posts that are not featured |
| Blog.Render | client/src/pages/BlogPage.tsx:190-326 | corrected: the same count, empty state and featured section, and the grid holds exactly the matching posts other than the one the featured section shows |
| Blog.CountedIffDisplayed | client/src/pages/BlogPage.tsx:302-308 | corrected: a post is counted exactly when it is displayed |
| Blog.CategoryFor | client/src/pages/BlogPage.tsx:90 | the lookup finds the category with that slug, and none exactly when no category has it |
| Blog.CatalogueIsConsistent | client/src/pages/BlogPage.tsx:20-87 | every post's category exists, and post 1 is the only featured post |
| Pricing.DisplayedPrice | client/src/pages/PricingPage.tsx:128 | the yearly price in yearly billing, the monthly price otherwise |
| Pricing.Savings | client/src/pages/PricingPage.tsx:174-177 | a saving is shown exactly in yearly billing for a paid plan, and it equals twelve months of the price difference |
| Pricing.PlanCatalogue | client/src/pages/PricingPage.tsx:13-79 | yearly never costs more than monthly, the free plan shows no saving, Pro saves 48 and Team 120 a year, and exactly one plan is popular |
| Pricing.BillingParity | client/src/pages/PricingPage.tsx:253-293 | starting from yearly, with each click negating the period, billing is yearly exactly after an even number of clicks |
| Pricing.ClickFaq | client/src/pages/PricingPage.tsx:424 | clicking the open question closes it, and clicking another opens that one |
| Pricing.FaqOpenIsLastClicked | client/src/pages/PricingPage.tsx:254 | the first question starts open, an open question is the last one clicked, and a repeated click toggles it |
| Pricing.FirstChars | client/src/pages/PricingPage.tsx:378 | the initials have at most one letter per word |
| Pricing.FirstCharsOfWords | client/src/pages/PricingPage.tsx:378 | non-empty words each contribute their first letter |
| Pricing.InitialsOfWords | client/src/pages/PricingPage.tsx:378 | an author written as space-separated words gets the first letter of each word |
| ThemeToggle.IndexOf | client/src/components/ui/ThemeToggle.tsx:37 | the index names the option with that theme, and is -1 exactly when no option has it |
| ThemeToggle.Cycle | client/src/components/ui/ThemeToggle.tsx:36-40 | the next theme is always an option: the one after the current, wrapping, and light for an unknown theme |
| ThemeToggle.CycleOrder | client/src/components/ui/ThemeToggle.tsx:30-40 | light, dark and system follow each other, and three cycles return to the start |
| ThemeToggle.CurrentIcon | client/src/components/ui/ThemeToggle.tsx:42 | the icon is the current option's, and the sun when the theme is unknown |
| ThemeToggle.ToggleMenu | client/src/components/ui/ThemeToggle.tsx:100 | the trigger opens or closes the menu and keeps the theme |
| ThemeToggle.Choose | client/src/components/ui/ThemeToggle.tsx:131-134 | choosing an option sets its theme and closes the menu |
| ThemeToggle.ChooseThenIcon | client/src/components/ui/ThemeToggle.tsx:95 | after choosing an option the cycle knows its theme and the trigger shows its icon |
| AgentTimeline.IconFor | client/src/_backup_cosmos_design/components/ui/AgentTimeline.tsx:142 | a known agent gets its icon, any other the users icon |
| AgentTimeline.ColorFor | client/src/_backup_cosmos_design/components/ui/AgentTimeline.tsx:143 | a known agent gets its gradient, any other the gray fallback |
| AgentTimeline.KnownAgentsAgree | client/src/_backup_cosmos_design/components/ui/AgentTimeline.tsx:33-55 | the icon and colour tables name the same nine agents, and none of them falls back to gray |
| AgentTimeline.BadgeFor | client/src/_backup_cosmos_design/components/ui/AgentTimeline.tsx:167-171 | the Lead and Parallel badges exactly for those roles |
| AgentTimeline.MarkerFor | client/src/_backup_cosmos_design/components/ui/AgentTimeline.tsx:119-123 | the primary marker exactly for the first phase, the final marker exactly for a later last phase |
| AgentTimeline.MarkersOfTimeline | client/src/_backup_cosmos_design/components/ui/AgentTimeline.tsx:119-123 | in a timeline only the first phase is primary, the last is final when there are two or more, and a single phase is primary |
| AgentTimeline.Capitalize | client/src/_backup_cosmos_design/components/ui/AgentTimeline.tsx:165 | capitalising keeps the word's length |
| AgentTimeline.CapitalizeAll | client/src/_backup_cosmos_design/components/ui/AgentTimeline.tsx:165 | capitalising keeps the number of words |
| AgentTimeline.TitleCase | client/src/_backup_cosmos_design/components/ui/AgentTimeline.tsx:165 | the character-wise reference keeps the length |
| AgentTimeline.StyledIsTitleCase | client/src/_backup_cosmos_design/components/ui/AgentTimeline.tsx:165 | split on hyphens, capitalise and join with spaces is, character by character, hyphens turned into spaces and the letter after each (and the first) upper-cased |
| AgentTimeline.DisplayNameIsTitleCase | client/src/_backup_cosmos_design/components/ui/AgentTimeline.tsx:165 | an agent's display name is its name title-cased at hyphens, of the same length |
| AgentTimeline.AllAgentsAppend | client/src/_backup_cosmos_design/components/ui/AgentTimeline.tsx:99 | the agents of one more phase follow the earlier ones |
| AgentTimeline.AgentCountIsAllAgents | client/src/_backup_cosmos_design/components/ui/AgentTimeline.tsx:99 | the header's agent count is the number of agents across all phases |
| AgentTimeline.Render | client/src/_backup_cosmos_design/components/ui/AgentTimeline.tsx:57-205 | unparsable text is shown raw, a falsy plan or one without phases shows the empty notice, a timeline has one entry per phase, and the "How to Use This Plan" card appears exactly when the instructions are a non-empty string, showing them |
| AgentTimeline.TimelineShowsEveryAgent | client/src/_backup_cosmos_design/components/ui/AgentTimeline.tsx:99-171 | the timeline counts every agent and shows each one under its phase, title-cased, with its role, and with the users icon and gray gradient when unknown |

## Left out

- The language model call (`getNextStep` in `openrouter.ts` and `gemini.ts`) is an oracle parameter. Its retry and parsing logic is not part of this model.
- The prose of the system prompt is abbreviated. Only the blocks whose presence depends on the state are modelled.
- Express wiring is left out: CORS, body parsing, request ids, the security middleware of `middleware.ts` and `asyncHandler`. They involve no logic of the core.
- The root endpoint is left out because it returns a constant.
- Health endpoint memory figures are inputs. Node's heap measurement and `Math.round` are outside the model.
- Clocks, UUIDs and timers are parameters. Concurrency between requests and the `setInterval` scheduling of the sweep are not modelled.
- Console and file output are modelled as the lines produced, not the I/O itself.
- The progress lines the route handlers log at info level (`index.ts:115,126,144,179,221,259,279`), the startup and shutdown lines, and the limiter's 'Rate limit exceeded' warning (`rateLimiter.ts:95-100`) are not modelled. They change no response and no state, and `Logger.Write` covers how any such entry is filtered and printed.
- The limiter's custom `handler` and `keyGenerator` options are left out, because no limiter in the code sets them. The `X-RateLimit-*` headers are modelled only as numbers.
- The three limiters share one counter table keyed by client and path. The model keeps one table too.
- The branch that throws SESSION_CREATION_FAILED (`index.ts:121-123`) is left out, because a lookup right after `createSession` always finds the session.
- Handlers.ProgressLimit: a truthy `user_roles` that is neither a string nor an array makes `.includes` throw a TypeError in JavaScript. The model treats it as having no comma.
- Untyped model updates are typed in the model. A `null` history, or an update key outside `ProjectState`, is not modelled.
- Zod issue objects are reduced to a path and a message.
- `queue` of `ProjectState` is left out, because the server never reads or writes it.
- Presentational client components are not modelled: layout, SEO, landing/about/contact/features pages, `Explanation`, `FinalOutput`, `IdeaAnalysis` and the sidebar.
- Animation, styling and markdown rendering are not modelled.
- Blog post author, date, read time and tags are left out because no filter reads them.
- AgentTimeline.Render: `JSON.parse` is abstracted as the `Parsed` datatype. A truthy `phases` that is not an array (which throws in the browser) is not modelled. Agent names that are `Object.prototype` keys, such as `constructor`, are treated as unknown.
- Pricing.InitialsOfWords: stated only for single-space-separated non-empty words. Other author strings are covered by `Pricing.FirstChars` alone.
- String lengths are counted in code points, while JavaScript's `.length` counts UTF-16 code units. A character outside the Basic Multilingual Plane, such as an emoji, counts 2 in the source and 1 here. This shifts the schema bounds of `Validation.LengthIssues`, `Validation.BoundedTrimmed`, `Validation.ParseInit`, `Validation.ParseAnswer` and `Validation.ParseRefine`, the `> 100` long-idea bonus of `Prompts.DynamicLimit`, and the first character taken by `Pricing.FirstChars`, which would be half a surrogate pair in the source.
- Validation.ToIsoString: years before 0, printed by JavaScript with a minus sign and six digits, are not modelled (`Instant.year` is a natural number); the server clock never reads them.
- Prompts.QuestionNumber: a history that is a JSON object with its own `length` member would be read through that member in JavaScript; the model reads no length from an object. The state JSON always holds an array.
- Text.Lower: case mapping covers the ASCII letters only; the Unicode case tables of `toLowerCase` and `toUpperCase` are not modelled, so non-ASCII letters keep their case.

## Findings

| source | as written | input that shows it | evidently intended | confidence | as-written member | corrected member |
|---|---|---|---|---|---|---|
| server/src/errors.ts:124-137 | the handler calls `logger[logLevel](message, error, context, requestId)`, but `warn` takes `(message, context, requestId)` (`logger.ts:183-185`), so 4xx errors put the error slot's `undefined` in the context and the context object in the request-id slot | a 404 for an unknown project id: the warning line shows `[[object Object]]` as request id and no context | every level receives the context and the request id | not executed | Errors.HandleErrorAsWritten (Errors.WarnSignatureMismatch) | Errors.HandleError (Errors.LogEntry) |
| client/src/pages/BlogPage.tsx:197-198 | the featured post is shown only on the untouched page, yet the grid always drops featured posts while the count includes them | the Product tab with an empty search: the count says 2 articles but only post 3 is shown; post 1 is shown nowhere | every counted post is displayed, either in the featured section or in the grid | not executed | Blog.RenderAsWritten (Blog.ProductTabHidesFeaturedPost) | Blog.Render (Blog.CountedIffDisplayed) |
