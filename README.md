# SSL core, modelled in Dafny

This project models the server-side core of the SSL collaborative media studio. It also models its browser-side stores. The modelled parts are:

- the error family and the global error handler;
- the request schemas and the validation middleware;
- the string and time utilities;
- authentication: token lifetimes, the bearer header, refresh-token rotation, register and login;
- the project service;
- the in-memory job queue;
- the Replicate and Gemini adapters;
- the AI and media job processors;
- the realtime room bookkeeping;
- local file storage and the media routes;
- the configuration loader;
- the front-end state stores.

Collections the source keeps in the database or in memory are Dafny `map`s or `seq`s. They are held in fields of classes whose methods update them in place, as the source does. Remote services (Replicate, Gemini, ffmpeg, bcrypt, JWT, random ids, the clock) are parameters: either the answer they give, or a function standing for them. JavaScript values the core passes through without looking inside are the `Common.Value` datatype. That datatype covers truthiness, `||`, `??` and property reads.

One module per source file:

- `errors.dfy` (packages/fnd-errors)
- `error_handler.dfy`
- `validation.dfy` (packages/fnd-validation)
- `validate_middleware.dfy`
- `utils.dfy` (packages/fnd-utils)
- `auth.dfy`
- `config.dfy`
- `project.dfy`
- `queue.dfy`
- `replicate.dfy`
- `gemini.dfy`
- `ai_processor.dfy`
- `media_processor.dfy`
- `realtime.dfy`
- `storage.dfy`
- `media_routes.dfy`
- `frontend_state.dfy`

Shared modules:

- `common.dfy`: JavaScript values, `Option` and `Result`.
- `strs.dfy`: decimal text, trimming, ASCII case, `split`, `lastIndexOf`, UTF-16 code units.
- `seqs.dfy`: filter, stable descending sort, the largest `n` by a key, skip/limit.
- `node_path.dfy`: Node's `path.extname`, and `path.join` with its normalisation of `.`, `..` and repeated separators.
- `enums.dfy`: the status and media-type enumerations of the database schemas.

## Model

| member | source | states |
|---|---|---|
| Errors.NewAppError | packages/fnd-errors/src/index.js:11-19 | an AppError keeps the message, status code, code and details it is given, and is operational |
| Errors.AppErrorDefaults | packages/fnd-errors/src/index.js:11-17 | the defaults are status 500, code INTERNAL_ERROR, no details, name AppError |
| Errors.NewNotFoundError | packages/fnd-errors/src/index.js:30-35 | the message is the resource, then ` (id)` only when an id is given, then ` not found`; status 404 with `NOT_FOUND`, operational |
| Errors.NotFoundMessage | packages/fnd-errors/src/index.js:31-32 | the message starts with the resource and includes the id exactly when one is given; status 404 |
| Errors.NewValidationError | packages/fnd-errors/src/index.js:37-42 | the validation class keeps the message and details; status 400 with `VALIDATION_ERROR`, whatever the arguments |
| Errors.NewAuthenticationError | packages/fnd-errors/src/index.js:44-49 | the authentication class keeps the message; status 401 with `AUTHENTICATION_ERROR` |
| Errors.NewAuthorizationError | packages/fnd-errors/src/index.js:51-56 | the authorization class keeps the message; status 403 with `AUTHORIZATION_ERROR` |
| Errors.NewConflictError | packages/fnd-errors/src/index.js:58-63 | the conflict class keeps the message; status 409 with `CONFLICT_ERROR` |
| Errors.NewRateLimitError | packages/fnd-errors/src/index.js:65-70 | the rate-limit class keeps the message; status 429 with `RATE_LIMIT_ERROR` |
| Errors.SubclassStatusAnyMessage | packages/fnd-errors/src/index.js:30-78 | whatever message, details, resource, id or service a subclass is built with, its status and code are the fixed pair 404, 400, 401, 403, 409, 429 or 502 |
| Errors.NewExternalServiceError | packages/fnd-errors/src/index.js:72-78 | the error is of the external-service class and records the service; status 502 with `EXTERNAL_SERVICE_ERROR` |
| Errors.ExternalServiceMessage | packages/fnd-errors/src/index.js:73-74 | the message is `service: message`, both parts can be read back, and the error carries 502 and EXTERNAL_SERVICE_ERROR |
| Errors.ClassStatusAndCode | packages/fnd-errors/src/index.js:30-78 | every class built with its defaults has its fixed status and matching code, and is operational |
| Errors.StatusIdentifiesClass | packages/fnd-errors/src/index.js:32-74 | no two classes share a status |
| Errors.ToJSON | packages/fnd-errors/src/index.js:21-27 | code and message are copied; `details` appears exactly when it is truthy |
| ErrorHandler.HandleError | apps/sym/backend/src/middleware/errorHandler.js:9-55 | an AppError answers with its own status and `toJSON`; a ZodError answers 400 with its issues; a Mongoose ValidationError answers 400 with its message; anything else answers 500, with the message hidden in production; `success` is false and `data` is null in every case |
| ErrorHandler.ForeignErrorStatus | apps/sym/backend/src/middleware/errorHandler.js:20-54 | an error outside the AppError family gets 400 exactly when it is a ZodError or ValidationError, otherwise 500 |
| ErrorHandler.ProductionHidesInternalMessages | apps/sym/backend/src/middleware/errorHandler.js:52 | in production an unknown error's message is `Internal server error` |
| ErrorHandler.SubclassResponse | apps/sym/backend/src/middleware/errorHandler.js:11-17 | each subclass built with its default arguments is answered with its class's status and code |
| ErrorHandler.ExternalServiceResponse | apps/sym/backend/src/middleware/errorHandler.js:11-17 | a provider failure reaches the client as 502 with the `service: message` text |
| Validation.StringField | packages/fnd-validation/src/index.js:24 | a string field passes exactly when it is a string whose length in UTF-16 code units is within the bounds; the trimmed form is returned when asked for |
| Validation.EmailField | packages/fnd-validation/src/index.js:5 | an email passes exactly when the address check accepts it, and it is returned lower-cased and trimmed |
| Validation.PasswordField | packages/fnd-validation/src/index.js:7-10 | a password is valid exactly when its length in UTF-16 code units is between 8 and 128, and it is returned unchanged |
| Validation.AstralPasswordRejected | packages/fnd-validation/src/index.js:7-10 | a hundred emoji, 200 code units, are refused with the `at most 128 characters` issue |
| Validation.ObjectIdIff | packages/fnd-validation/src/index.js:12 | an object id matches exactly when it is 24 hexadecimal characters |
| Validation.ObjectIdCaseInsensitive | packages/fnd-validation/src/index.js:12 | letter case does not affect object-id validity |
| Validation.ObjectIdField | packages/fnd-validation/src/index.js:12 | the field passes exactly when it is a matching string, and is returned unchanged |
| Validation.NumberOf | packages/fnd-validation/src/index.js:15-16 | `Number(v)` for integers: undefined and objects are NaN, null and the blank text 0, booleans 0 or 1; an empty array is 0 and an array of two or more is NaN |
| Validation.NumberOfSingleton | packages/fnd-validation/src/index.js:15-16 | a one-element array reads as its element's text: `["5"]` as `"5"`, `[5]` as 5, `[null]` as 0, and `[true]` as NaN though `true` is 1 |
| Validation.CoercedInt | packages/fnd-validation/src/index.js:15-16 | absent gives the default; otherwise it passes exactly when `Number(v)` is an integer within the bounds, and the result is that number |
| Validation.ParsePagination | packages/fnd-validation/src/index.js:14-17 | the query passes exactly when both coerced page and limit pass, and the result holds those two values, so page is at least 1 and limit in 1..100 |
| Validation.PaginationDefaults | packages/fnd-validation/src/index.js:15-16 | an empty query gives page 1, limit 20 |
| Validation.NumberOfDecimalText | packages/fnd-validation/src/index.js:15-16 | coercion reads a decimal text back as its number |
| Validation.PaginationFromQueryText | packages/fnd-validation/src/index.js:14-17 | query-string page and limit in range parse back to exactly those numbers |
| Validation.PaginationRejectsOutOfRange | packages/fnd-validation/src/index.js:15-16 | a page below 1, or a limit below 1 or above 100, is rejected |
| Validation.ParseRegister | packages/fnd-validation/src/index.js:21-25 | registration passes exactly when email, password and name are each valid; the email comes back normalised, the name trimmed and the password unchanged |
| Validation.ParseRegisterOk | packages/fnd-validation/src/index.js:21-25 | a register body whose email, password and name each pass is accepted, with the name trimmed |
| Validation.RegisterBlankNameBecomesEmpty | packages/fnd-validation/src/index.js:24 | a name of spaces passes the length check and is parsed to the empty name, because trimming comes after the check (the user schema's `required` refuses it later) |
| Validation.OptionalDescription | packages/fnd-validation/src/index.js:40 | the description is absent, or a string of at most 2000 UTF-16 code units, returned as given |
| Validation.OptionalRecord | packages/fnd-validation/src/index.js:41 | settings are absent or a plain object |
| Validation.ParseCreateProject | packages/fnd-validation/src/index.js:38-42 | a create request passes exactly when its name, description and settings are valid; the name comes back trimmed, and description and settings are the given ones or absent |
| Validation.StatusField | packages/fnd-validation/src/index.js:47 | the status passes exactly when it is the text `active` or `archived`, and maps to that status, never `deleted` |
| Validation.ParseUpdateProject | packages/fnd-validation/src/index.js:44-49 | an update passes exactly when each field is absent or valid (name 1..200 units, description at most 2000, status `active`/`archived`, settings an object); a given name comes back trimmed, description and settings as sent, and the status as named |
| Validation.UpdateNeverDeletes | packages/fnd-validation/src/index.js:47 | no accepted update asks for the deleted status |
| Validation.ProviderField | packages/fnd-validation/src/index.js:55 | the provider is exactly `replicate` or `gemini` |
| Validation.InputField | packages/fnd-validation/src/index.js:57-59 | the input is an object whose prompt is a string of 1..10000 UTF-16 code units; the prompt and every other property read back as given |
| Validation.LookupWithoutPrompt | packages/fnd-validation/src/index.js:57-59 | dropping the `prompt` entries changes the value of no other property |
| Validation.ParseGenerate | packages/fnd-validation/src/index.js:53-61 | a generate request passes exactly when project id, provider, model, prompt and params are all valid; the result carries the given project id, provider, model and params, and an input whose every property is the given one |
| Validation.GenerateRejectionHasIssues | packages/fnd-validation/src/index.js:53-61 | a rejected generate request carries at least one issue |
| ValidateMiddleware.Write | apps/sym/backend/src/middleware/validate.js:12 | writing a source sets it and leaves the other two sources alone |
| ValidateMiddleware.WriteRead | apps/sym/backend/src/middleware/validate.js:8-12 | writing back what was read changes nothing |
| ValidateMiddleware.Validated | apps/sym/backend/src/middleware/validate.js:7-14 | a failed parse leaves the request as it was and passes the error on; a successful parse replaces only the chosen source with the parsed value and passes nothing |
| ValidateMiddleware.ValidatedIdempotent | apps/sym/backend/src/middleware/validate.js:8-13 | with a schema that accepts its own output, validating twice is validating once |
| ValidateMiddleware.SafeParse | apps/sym/backend/src/middleware/validate.js:8 | the parse succeeds exactly when the schema does; failures become a ZodError holding the issues |
| ValidateMiddleware.Request.Validate | apps/sym/backend/src/middleware/validate.js:6-15 | the request ends as `Validated` says; `next` is called exactly once, with the error on failure; the source defaults to the body |
| Utils.DropSeparators | packages/fnd-utils/src/index.js:21 | the result is a suffix of the input that does not start with a separator |
| Utils.CollapseSeparators | packages/fnd-utils/src/index.js:20 | the result contains no separator, and each character is `-` or comes from the input |
| Utils.TrimDashStart | packages/fnd-utils/src/index.js:21 | leading dashes are removed, leaving a suffix |
| Utils.TrimDashEnd | packages/fnd-utils/src/index.js:21 | trailing dashes are removed, leaving a prefix |
| Utils.Slugify | packages/fnd-utils/src/index.js:15-22 | the result is a slug (lower-case letters, digits and dashes, no dash at either end, runs of dashes allowed inside), and its non-dash characters are exactly the lower-cased input's ASCII letters and digits, in order |
| Utils.SlugIsFixpoint | packages/fnd-utils/src/index.js:15-22 | a slug is its own slug |
| Utils.SlugifyIdempotent | packages/fnd-utils/src/index.js:15-22 | slugifying twice is slugifying once |
| Utils.Truncate | packages/fnd-utils/src/index.js:25-28 | on UTF-16 code units: a text within the limit is returned unchanged; a longer one is sliced to `maxLength - 3` units and gains the three units of `...` |
| Utils.SliceTo | packages/fnd-utils/src/index.js:27 | `slice(0, end)` on code units: a prefix whose length counts a negative end from the back and is clamped to the text |
| Utils.TruncateLength | packages/fnd-utils/src/index.js:25-28 | with a limit of at least 3, the result never exceeds the limit, and a cut string is exactly the limit long |
| Utils.TruncateSmallLimit | packages/fnd-utils/src/index.js:27 | with a limit below 3, a cut string is longer than the limit |
| Utils.EllipsisUnits | packages/fnd-utils/src/index.js:27 | `...` is three code units 0x2E |
| Utils.TruncateBmp | packages/fnd-utils/src/index.js:25-28 | for text inside the Basic Multilingual Plane a long text keeps its first `maxLength - 3` characters and gains `...` |
| Utils.TruncateAstral | packages/fnd-utils/src/index.js:25-28 | four emoji are eight units: limit 5 keeps one emoji, and limit 4 keeps half of its surrogate pair |
| Utils.HumanDuration | packages/fnd-utils/src/index.js:37-44 | the text always ends in `s`, and in `ms` exactly when the duration is below one second |
| Utils.Capitalize | packages/fnd-utils/src/index.js:31-33 | only the first character is upper-cased; the length is kept |
| Utils.CapitalizeIdempotent | packages/fnd-utils/src/index.js:31-33 | capitalizing twice is capitalizing once |
| Utils.HumanDurationShort | packages/fnd-utils/src/index.js:39-41 | below a second the result is `Nms`; below a minute it is whole seconds |
| Utils.HumanDurationMinutes | packages/fnd-utils/src/index.js:42-44 | from a minute on the result is `Mm Ss`, with M·60 + S the whole seconds and S < 60 |
| Utils.TimeAgo | packages/fnd-utils/src/index.js:48-63 | the result is the largest interval with a count of at least one, pluralised, or `just now` |
| Utils.PhrasePlural | packages/fnd-utils/src/index.js:60 | a count of 1 is singular and larger counts take an `s` |
| Utils.Compact | packages/fnd-utils/src/index.js:75-79 | exactly the entries whose value is not undefined or null remain |
| Utils.CompactLookup | packages/fnd-utils/src/index.js:75-79 | reading a property of the compacted object gives its value when present and not nullish, otherwise undefined |
| Utils.Retry | packages/fnd-utils/src/index.js:85-98 | attempts are numbered from 0; it stops at the first success or after `maxRetries + 1` attempts, sleeping `baseDelay·2^k` between attempts; the last error is rethrown |
| Auth.ParseDuration | packages/backend-auth/src/index.js:121-127 | a text not of the form digits-then-unit gives the 7-day default |
| Auth.ParseDurationRoundTrip | packages/backend-auth/src/index.js:121-127 | the decimal text of n followed by a unit gives n times that unit's multiplier |
| Auth.SevenDays | packages/backend-auth/src/index.js:123-126 | `7d` is the 7-day default |
| Auth.FifteenMinutes | packages/backend-auth/src/index.js:125-126 | `15m` is 900000 ms |
| Auth.DefaultExpiries | packages/backend-auth/src/index.js:41 | the configured default refresh and access expiries parse to 7 days and 15 minutes |
| Auth.BearerToken | packages/backend-auth/src/index.js:108-113 | a header passes exactly when it starts with `Bearer `, and the token is what follows it; otherwise `Missing authorization header` |
| Auth.BearerRoundTrip | packages/backend-auth/src/index.js:109-113 | `Bearer ` followed by a token gives back that token |
| Auth.Authenticate | packages/backend-auth/src/index.js:29-35 | the user id is the verified token's subject; a bad token gives `Invalid or expired token` |
| Auth.AuthService.NewRecord | packages/backend-auth/src/index.js:39-44 | a new refresh token expires at now plus the refresh lifetime and is not revoked |
| Auth.AuthService.CreateRefreshToken | packages/backend-auth/src/index.js:39-45 | the token table gains exactly the new record |
| Auth.AuthService.RotateRefreshToken | packages/backend-auth/src/index.js:47-63 | rotation succeeds exactly when the old token is present, unrevoked and unexpired; the old token is then revoked and the new one usable; otherwise `Invalid or expired refresh token` and nothing changes |
| Auth.AuthService.RevokeRefreshToken | packages/backend-auth/src/index.js:65-67 | a known token is marked revoked; an unknown one changes nothing |
| Auth.AuthService.Register | packages/backend-auth/src/index.js:71-85 | registration fails exactly when the email is taken, with `Email already registered`; otherwise the user is stored with the hashed password and tokens are issued |
| Auth.AuthService.Login | packages/backend-auth/src/index.js:87-103 | login succeeds exactly when the user exists and the password verifies; both failures give `Invalid credentials` |
| Config.Env | packages/fnd-config/src/index.js:13-19 | a defined value wins, otherwise the default; with neither it fails with `Missing required environment variable: <key>` |
| Config.EmptyValueWins | packages/fnd-config/src/index.js:14 | an empty value is used rather than the default |
| Config.EnvOr | packages/fnd-config/src/index.js:13-19 | with a default, the lookup is the value when present and otherwise the default |
| Config.ParseInt | packages/fnd-config/src/index.js:26 | `parseInt(text, 10)` is NaN exactly when no digit follows the leading space and optional sign; otherwise it is the value of the leading digits, negated after a `-` |
| Config.ParseIntSignedDigits | packages/fnd-config/src/index.js:26 | white space, an optional sign, digits and a tail starting with a non-digit parse to the signed value of the digits, for all such texts |
| Config.ParseIntSignAndUnit | packages/fnd-config/src/index.js:26 | `"  -12px"` parses to -12 |
| Config.ParseIntLeadingZeros | packages/fnd-config/src/index.js:26 | `"007"` parses to 7 |
| Config.ParseIntDecimal | packages/fnd-config/src/index.js:26 | the decimal text of a number parses back to it |
| Config.ParseIntEmpty | packages/fnd-config/src/index.js:26 | the empty text is NaN |
| Config.LoadConfig | packages/fnd-config/src/index.js:24-68 | each setting is its variable when set (even to the empty string) and its default otherwise; the port is `parseInt` of that text |
| Config.PortFromEnvironment | packages/fnd-config/src/index.js:26 | a `PORT` holding the decimal text of `n` gives port `n`, whatever else is set |
| Config.ConfigDefaults | packages/fnd-config/src/index.js:25-66 | with no variables set: port 4000, development, the dev JWT secret with `15m` and `7d`, local storage |
| Config.FourThousand | packages/fnd-config/src/index.js:26 | `4000` parses to 4000 |
| Config.EmptyPortIsNaN | packages/fnd-config/src/index.js:14-26 | an empty PORT is kept by `??` and parses to NaN |
| Projects.Visible | packages/backend-project/src/index.js:16 | exactly the owner's projects that are not deleted |
| Projects.ListPage | packages/backend-project/src/index.js:13-23 | the page is the run of the owner's visible projects, newest update first, starting `(page - 1)·limit` in, of length `PageLength` (at most `limit`, and exactly `limit` before the last page); the meta counts all visible ones |
| Projects.SortedVisible | packages/backend-project/src/index.js:16-17 | the owner's non-deleted projects in update order are all the owner's, none deleted, newest change first |
| Projects.PageLength | packages/backend-project/src/index.js:14-20 | a page is at most `limit` long, empty exactly past the end, inside the rows, and full when enough rows follow |
| Projects.EveryVisibleIsListed | packages/backend-project/src/index.js:13-23 | the k-th visible project in update order is row `k % limit` of page `k / limit + 1` |
| Projects.FindIndex | packages/backend-project/src/index.js:26-33 | the first project with this id and owner, or none |
| Projects.ApplyUpdate | packages/backend-project/src/index.js:31-36 | each given field (name trimmed, description, status, settings) replaces the stored one and each absent one is kept; id, owner and creation time are kept and the update time is `now` |
| Projects.AppendKeepsUnique | packages/backend-project/src/index.js:7-11 | a new id keeps ids unique |
| Projects.DeletedNotListed | packages/backend-project/src/index.js:42-47 | a soft-deleted project drops out of its owner's listing |
| Projects.ProjectStore.Create | packages/backend-project/src/index.js:7-11 | a new project is appended with the owner set and the schema defaults filled in |
| Projects.ProjectStore.Get | packages/backend-project/src/index.js:25-29 | the owner's project with this id, or `Project (id) not found` |
| Projects.ProjectStore.Update | packages/backend-project/src/index.js:31-40 | only the matching owned project changes; otherwise not found and nothing changes |
| Projects.ProjectStore.Delete | packages/backend-project/src/index.js:42-51 | the matching owned project gets the deleted status; otherwise not found and nothing changes |
| FrontendState.SetProperty | packages/frontend-state/src/index.js:69 | the property is set and every other property keeps its value |
| FrontendState.AssignLookup | packages/frontend-state/src/index.js:69 | after `Object.assign` every property of the source wins |
| FrontendState.AssignKeepsOthers | packages/frontend-state/src/index.js:69 | properties the source lacks keep the target's values |
| FrontendState.AuthStore.constructor | packages/frontend-state/src/index.js:6-13 | the restored store is authenticated exactly when a non-empty token was persisted |
| FrontendState.AuthStore.SetAuth | packages/frontend-state/src/index.js:15-21 | user and token are set and the store is authenticated |
| FrontendState.AuthStore.ClearAuth | packages/frontend-state/src/index.js:23-29 | user and token are cleared and the store is not authenticated |
| FrontendState.ProjectStore.SetProjects | packages/frontend-state/src/index.js:40-43 | the list is replaced; the meta is replaced only when one is given |
| FrontendState.ProjectStore.AddProject | packages/frontend-state/src/index.js:45-48 | the project goes first and the total grows by one |
| FrontendState.ProjectStore.SetCurrentProject | packages/frontend-state/src/index.js:50-52 | only the current project changes |
| FrontendState.FindJob | packages/frontend-state/src/index.js:67 | the first job with the id, or none |
| FrontendState.UpdatedJobs | packages/frontend-state/src/index.js:66-71 | only the first matching job is merged; an unknown id changes nothing |
| FrontendState.UpdateJobMerges | packages/frontend-state/src/index.js:66-71 | the merged job takes each updated property and keeps the others |
| FrontendState.RemainingJobs | packages/frontend-state/src/index.js:73-75 | exactly the jobs with another id remain |
| FrontendState.RemoveKeepsOrder | packages/frontend-state/src/index.js:74 | removal keeps the remaining jobs in order |
| FrontendState.AiStore.AddJob | packages/frontend-state/src/index.js:62-64 | the job is appended |
| FrontendState.AiStore.UpdateJob | packages/frontend-state/src/index.js:66-71 | the job list becomes `UpdatedJobs` |
| FrontendState.AiStore.RemoveJob | packages/frontend-state/src/index.js:73-75 | the job list becomes `RemainingJobs` |
| FrontendState.NotificationEntry | packages/frontend-state/src/index.js:99 | the entry is an object whose id is the generated one unless the notification has its own, which then wins |
| FrontendState.AssignLookupCases | packages/frontend-state/src/index.js:99 | a property the source lacks keeps the target's value; with unique keys, one it has takes the source's |
| FrontendState.UiStore.ToggleSidebar | packages/frontend-state/src/index.js:85-87 | the sidebar flag flips and nothing else changes |
| FrontendState.UiStore.ShowModal | packages/frontend-state/src/index.js:89-91 | the modal is the id with its data; the data is null when omitted or `undefined`, and nothing else changes |
| FrontendState.UiStore.CloseModal | packages/frontend-state/src/index.js:93-95 | no modal is shown |
| FrontendState.UiStore.AddNotification | packages/frontend-state/src/index.js:97-99 | the notification is appended with the clock's decimal text as id |
| FrontendState.UiStore.ExpireNotification | packages/frontend-state/src/index.js:100-102 | every notification with that id is dropped |
| FrontendState.SameMillisecondShareExpiry | packages/frontend-state/src/index.js:98-102 | two notifications added in the same millisecond share an id, so the first timeout removes both |
| Queue.JobId | packages/backend-queue/src/index.js:37 | an id splits at `_` into `job` and the counter and time in decimal |
| Queue.JobIdEmbedsCounter | packages/backend-queue/src/index.js:37 | the counter can be read back from a job id |
| Queue.JobIdsDistinct | packages/backend-queue/src/index.js:37 | different counters give different ids, whatever the clock says |
| Queue.NewJobShape | packages/backend-queue/src/index.js:38 | a new job is queued with no result, error or completion time |
| Queue.NoProcessorStep | packages/backend-queue/src/index.js:54-61 | with no processor, a queued job fails with `No processor registered for type: <type>` |
| Queue.StartedStep | packages/backend-queue/src/index.js:64 | a queued job moves to processing |
| Queue.FinishedStep | packages/backend-queue/src/index.js:68-79 | a running job completes with the result and a completion time, or fails with the thrown message |
| Queue.FinishedIsFinal | packages/backend-queue/src/index.js:50-81 | completed and failed jobs never change status again, and no job completes without processing |
| Queue.JobQueue.constructor | packages/backend-queue/src/index.js:11-17 | the queue starts empty with counter 0 |
| Queue.JobQueue.Process | packages/backend-queue/src/index.js:24-27 | the handler for the type is replaced and nothing else changes |
| Queue.JobQueue.Add | packages/backend-queue/src/index.js:36-48 | the counter grows by one; a fresh queued job is stored under an id that embeds it; `job:added` is emitted; `{id, type}` is returned |
| Queue.JobQueue.Dispatch | packages/backend-queue/src/index.js:50-66 | an unknown id changes nothing; without a processor the job fails and `job:failed` is emitted; otherwise it becomes processing and `job:processing` is emitted |
| Queue.JobQueue.Complete | packages/backend-queue/src/index.js:68-80 | the running job completes or fails by the handler's outcome, with the matching event |
| Queue.FailKeepsState | packages/backend-queue/src/index.js:54-61 | a queued job failing for want of a processor keeps every job well numbered and leaves the running set unchanged |
| Queue.StartKeepsState | packages/backend-queue/src/index.js:63-65 | a queued job that starts is recorded as running, and the processing jobs stay exactly the running ones |
| Queue.SettleKeepsState | packages/backend-queue/src/index.js:68-80 | a settled job leaves the running set and the invariant is kept |
| Queue.JobQueue.GetJob | packages/backend-queue/src/index.js:88-90 | the stored job, or none |
| Replicate.Version | packages/backend-ai-replicate/src/index.js:38 | there is no version exactly when the model string has no `:` |
| Replicate.VersionAfterColon | packages/backend-ai-replicate/src/index.js:38 | `owner/model:version` gives the version |
| Replicate.Wrap | packages/backend-ai-replicate/src/index.js:66-70 | external-service errors pass through; anything else becomes a Replicate error |
| Replicate.WrapFacts | packages/backend-ai-replicate/src/index.js:66-70 | wrapping keeps an ExternalServiceError, prefixes other messages with `Replicate: `, and is idempotent |
| Replicate.Settle | packages/backend-ai-replicate/src/index.js:55-65 | a failed prediction is an error; any other terminal one returns id, status, output and metrics |
| Replicate.FailedMessage | packages/backend-ai-replicate/src/index.js:56 | a failure message is the prediction's error, or `Prediction failed` when that is empty, with status 502 |
| Replicate.FirstStop | packages/backend-ai-replicate/src/index.js:46-53 | the first poll that is terminal or throws ends the loop |
| Replicate.FirstStopAt | packages/backend-ai-replicate/src/index.js:46-53 | a terminal poll with none before it is the first stop |
| Replicate.OutcomeIsFirstTerminal | packages/backend-ai-replicate/src/index.js:45-65 | a settled outcome comes from the first stopping poll, after exactly that many requests |
| Replicate.TerminalResolves | packages/backend-ai-replicate/src/index.js:55-65 | a terminal prediction succeeds exactly when it did not fail; errors are external-service errors |
| Replicate.RunPrediction | packages/backend-ai-replicate/src/index.js:32-71 | the outcome is `PredictionOutcome`, every poll asks for the created id, and a progress report is made after each poll when asked for |
| Replicate.ListModels | packages/backend-ai-replicate/src/index.js:76-82 | one entry per model, with its key, version and `replicate` |
| Gemini.ModelName | packages/backend-ai-gemini/src/index.js:32 | the model defaults to `gemini-2.0-flash` |
| Gemini.Wrap | packages/backend-ai-gemini/src/index.js:45-48 | every failure becomes a Gemini ExternalServiceError with the same message |
| Gemini.GenerateContent | packages/backend-ai-gemini/src/index.js:32-49 | a nullish prompt fails; otherwise the text and the usage, or `{}` when usage is missing, or the wrapped failure |
| Gemini.GenerateContentFacts | packages/backend-ai-gemini/src/index.js:41-48 | a returned usage is always truthy; every failure is a 502 whose message starts with `Gemini: ` |
| Gemini.ReadAppend | packages/backend-ai-gemini/src/index.js:64-67 | reading two runs of chunks, the first all readable, is reading each in turn |
| Gemini.StreamContent | packages/backend-ai-gemini/src/index.js:58-74 | a nullish prompt ends with the wrapped TypeError before any call; otherwise yields the non-empty texts of the chunks before the first failure, in order, then ends with that failure wrapped, or with none |
| Gemini.StreamYieldsEveryText | packages/backend-ai-gemini/src/index.js:64-67 | a stream of non-empty texts yields them all |
| Gemini.AllOkTexts | packages/backend-ai-gemini/src/index.js:64-67 | a stream whose chunks all read reads as its texts, with no failure |
| Gemini.ListModels | packages/backend-ai-gemini/src/index.js:79-85 | one entry per model, with its key, name and `gemini` |
| AiProcessor.Apply | apps/worker/src/processors/ai.processor.js:21-66 | an update document never changes the job's input |
| AiProcessor.UpdateById | apps/worker/src/processors/ai.processor.js:21 | only the record with the id changes, and an unknown id changes nothing |
| AiProcessor.UnknownProvider | apps/worker/src/processors/ai.processor.js:38-39 | an unknown provider fails with `Unknown AI provider: <provider>` |
| AiProcessor.ReplicateOutput | apps/worker/src/processors/ai.processor.js:26-30 | the stored Replicate output is the prediction's output; its errors pass through |
| AiProcessor.GeminiOutput | apps/worker/src/processors/ai.processor.js:32-36 | the Gemini output is `{text, usage}` generated from `input.prompt` with the job's model |
| AiProcessor.SettledRecord | apps/worker/src/processors/ai.processor.js:42-66 | a settled record is completed with the output, or failed with the message; either way it carries the duration `end - start` and the separately read completion time |
| AiProcessor.AiJobStore.FindByIdAndUpdate | apps/worker/src/processors/ai.processor.js:21 | the table becomes `UpdateById` |
| AiProcessor.ProcessAIJob | apps/worker/src/processors/ai.processor.js:13-67 | the record is marked processing, then the named provider is called, then the record is settled with the duration and the completion time; the job result is `{jobId, output, duration}` or the rethrown error |
| MediaProcessor.Default | apps/worker/src/processors/media.processor.js:12 | a default replaces only undefined |
| MediaProcessor.DefaultsApply | apps/worker/src/processors/media.processor.js:12-23 | missing options are `{}`; a missing `generateThumb` means no thumbnail; a given one decides by truthiness |
| MediaProcessor.ThumbDir | apps/worker/src/processors/media.processor.js:24 | the prefix before the last `/`, or empty when there is none |
| MediaProcessor.ThumbDirOfJoin | apps/worker/src/processors/media.processor.js:24 | the directory of `dir/file` is `dir` |
| MediaProcessor.ProcessMediaJob | apps/worker/src/processors/media.processor.js:11-36 | transcoding comes first and its failure is rethrown with no thumbnail; a thumbnail goes into the output's directory only when asked for, otherwise null; success returns output path, thumbnail and duration |
| Realtime.RoomNamesDistinct | packages/backend-realtime/src/index.js:30-77 | room names are injective, and the three kinds of room never clash |
| Realtime.Joined | packages/backend-realtime/src/index.js:30-77 | joining adds the socket to the room |
| Realtime.Left | packages/backend-realtime/src/index.js:40-63 | leaving removes the socket from the room |
| Realtime.MembershipOnlyForCaller | packages/backend-realtime/src/index.js:29-45 | join and leave change only the caller's membership, only in that room |
| Realtime.JoinThenLeave | packages/backend-realtime/src/index.js:29-45 | joining then leaving leaves the caller out and the others in |
| Realtime.DropRemovesSocket | packages/backend-realtime/src/index.js:47-49 | after a disconnect the socket is in no room of its namespace |
| Realtime.Hub.InitSocketServer | packages/backend-realtime/src/index.js:14-87 | the server exists and its namespaces start with no rooms |
| Realtime.Hub.GetIO | packages/backend-realtime/src/index.js:90-93 | the server, or `Socket.io not initialized. Call initSocketServer first.` |
| Realtime.Hub.UserJoin | packages/backend-realtime/src/index.js:29-37 | the socket joins the project room and the other members receive its online presence |
| Realtime.Hub.UserLeave | packages/backend-realtime/src/index.js:39-45 | the socket leaves and the members that remain receive its offline presence |
| Realtime.Hub.JobSubscribe | packages/backend-realtime/src/index.js:57-60 | the socket joins the job room |
| Realtime.Hub.JobUnsubscribe | packages/backend-realtime/src/index.js:62-64 | the socket leaves the job room |
| Realtime.Hub.Subscribe | packages/backend-realtime/src/index.js:76-78 | the socket joins its user room |
| Realtime.Hub.Disconnect | packages/backend-realtime/src/index.js:47-82 | only memberships in that namespace change, and nothing is sent |
| Realtime.Hub.EmitTo | packages/backend-realtime/src/index.js:96-108 | before initialisation it fails and sends nothing; after, one message reaches the room's members |
| Realtime.Hub.EmitToJob | packages/backend-realtime/src/index.js:96-98 | the message reaches the job room in `/ai-jobs` |
| Realtime.Hub.EmitToProject | packages/backend-realtime/src/index.js:101-103 | the message reaches the project room in `/project` |
| Realtime.Hub.EmitToUser | packages/backend-realtime/src/index.js:106-108 | the message reaches the user room in `/notifications` |
| NodePath.Extname | packages/backend-storage/src/index.js:22 | the extension is empty or starts with its only `.`, and has no `/` |
| NodePath.ExtnameOfSuffix | packages/backend-storage/src/index.js:22-23 | an extension survives any prefix without `.` or `/` |
| NodePath.Join | packages/backend-storage/src/index.js:78 | the directory, a `/`, then the segment |
| NodePath.JoinPathPlain | packages/backend-storage/src/index.js:78 | `path.join` of a normalised absolute directory and a plain segment is the directory, `/`, the segment |
| NodePath.SplitAppend | packages/backend-storage/src/index.js:78 | splitting `a/b` at `/` is splitting `a` and `b` |
| NodePath.JoinAllSplit | packages/backend-storage/src/index.js:78 | joining the pieces of a split gives the text back |
| NodePath.ResolvePlain | packages/backend-storage/src/index.js:78 | normalisation appends plain segments unchanged |
| NodePath.ResolveAppend | packages/backend-storage/src/index.js:78 | normalising two runs of segments is normalising one after the other |
| NodePath.JoinPathDotDot | packages/backend-storage/src/index.js:78 | `dir/x/../k` is the same path as `dir/k` |
| NodePath.JoinPathClimbsTwo | apps/sym/backend/src/routes/media.routes.js:103 | `../../c/d` joined to `/a/b` climbs out to `/c/d` |
| NodePath.JoinPathClimbs | apps/sym/backend/src/routes/media.routes.js:103 | `path.join('/app/uploads', '../../etc/passwd')` is `/etc/passwd` |
| Storage.MaxFileSizeValue | packages/backend-storage/src/index.js:33-35 | the limit is 104857600 bytes |
| Storage.FileFilter | packages/backend-storage/src/index.js:36-47 | a type is accepted exactly when it is listed; otherwise `Unsupported file type: <type>` |
| Storage.AcceptedAreMedia | packages/backend-storage/src/index.js:37-41 | every accepted type is an image, video or audio type; there are ten |
| Storage.StoredNameShape | packages/backend-storage/src/index.js:21-24 | a stored name is the upload time in decimal, a `-`, and the original's extension |
| Storage.StoredName | packages/backend-storage/src/index.js:21-24 | a stored name starts with the time and `-`, and is one plain path segment for an id without `/` |
| Storage.LocalStorage.GetFilePath | packages/backend-storage/src/index.js:77-79 | for a normalised absolute upload directory and a plain key, the path is the directory, a `/`, then the key |
| Storage.LocalStorage.GetFilePathInjective | packages/backend-storage/src/index.js:77-79 | different plain keys give different paths |
| Storage.LocalStorage.DotDotKeyAliases | packages/backend-storage/src/index.js:77-79 | the key `x/../k` differs from `k` but names the same file |
| Storage.LocalStorage.DeleteFile | packages/backend-storage/src/index.js:64-70 | the file is gone afterwards; a missing file changes nothing |
| MediaRoutes.MaxUploadSizeValue | apps/sym/backend/src/routes/media.routes.js:27 | the limit is 52428800 bytes |
| MediaRoutes.UploadFilterUnanchored | apps/sym/backend/src/routes/media.routes.js:29-30 | any type with one of the five words anywhere inside passes |
| MediaRoutes.TypeMap | apps/sym/backend/src/routes/media.routes.js:44-49 | image, video or audio by prefix, in that order; everything else is text |
| MediaRoutes.TypedUploadsPassFilter | apps/sym/backend/src/routes/media.routes.js:29-49 | every upload typed image, video or audio passed the filter |
| MediaRoutes.ProjectIdOf | apps/sym/backend/src/routes/media.routes.js:52 | a truthy project id is kept; otherwise the 24-zero placeholder |
| MediaRoutes.DiskName | apps/sym/backend/src/routes/media.routes.js:19-22 | the disk name starts with the time and `-`, is one plain path segment, and keeps the original's extension |
| MediaRoutes.ListMedia | apps/sym/backend/src/routes/media.routes.js:71-73 | the caller's 100 newest records, newest first: min(100, n) of them, every record left out no newer than any listed, and all of them when there are at most 100 |
| MediaRoutes.FindOwned | apps/sym/backend/src/routes/media.routes.js:83 | a record with this id uploaded by the caller, or none |
| MediaRoutes.OthersCannotDelete | apps/sym/backend/src/routes/media.routes.js:83-86 | nobody but the uploader finds a record to delete |
| MediaRoutes.ServeFileAsWritten | apps/sym/backend/src/routes/media.routes.js:102-108 | the route as written serves `path.join(uploadDir, key)` whenever a file exists there |
| MediaRoutes.TraversalEscapesUploadDir | apps/sym/backend/src/routes/media.routes.js:102-108 | as written, the key `../../etc/passwd` on `/app/uploads` serves `/etc/passwd`, outside the directory |
| MediaRoutes.ServeFile | apps/sym/backend/src/routes/media.routes.js:102-108 | corrected: a file is served exactly when the key is one plain segment and the file exists under the joined path; otherwise `File not found` |
| MediaRoutes.ServedIsInsideUploadDir | apps/sym/backend/src/routes/media.routes.js:102-108 | a served file lies directly inside a normalised upload directory, and plain keys are served as the route as written serves them |
| MediaRoutes.UploadedIsServed | apps/sym/backend/src/routes/media.routes.js:19-22 | a file stored under its disk name is served, and after deletion it is not |
| MediaRoutes.MediaLibrary.Upload | apps/sym/backend/src/routes/media.routes.js:17-66 | no file or a filtered one gives `No file uploaded` and changes nothing; too large gives multer's error; otherwise the file is stored under its disk name and a typed record owned by the caller is appended |
| MediaRoutes.MediaLibrary.List | apps/sym/backend/src/routes/media.routes.js:69-78 | `GET /` answers with ListMedia of the library's records for the caller: the newest hundred of their records |
| MediaRoutes.MediaLibrary.Serve | apps/sym/backend/src/routes/media.routes.js:102-108 | corrected `GET /file/:key`: answers with ServeFile on the library's files and directory, so only a one-segment key is served; the route as written is ServeFileAsWritten |
| MediaRoutes.MediaLibrary.Delete | apps/sym/backend/src/routes/media.routes.js:81-99 | an owned record is removed along with its file; otherwise `Media not found` and nothing changes |

## Left out

- Logging (winston) is left out throughout, and so are the `log.*` calls.
- I/O boundaries are parameters:
  - database calls are class fields;
  - Replicate, Gemini and ffmpeg are given as their answers;
  - bcrypt, JWT signing and verifying, `randomHex`, `nanoid`, `Math.random` and `Date.now` are given as values or functions.
- `generateId`, `randomHex` and `sha256` are thin wrappers over foreign libraries and are not modelled.
- Case mapping is ASCII only. Zod's default messages are the empty string. Numbers are integers; floating point is not modelled.
- Strings are sequences of Unicode scalar values, so a JavaScript string holding an unpaired surrogate cannot be represented. Lengths the source takes with `.length` or Zod's `.min`/`.max` are counted in UTF-16 code units (`Strs.Utf16Length`).
- Validation.NumberOf: reads only an optional sign and decimal digits after trimming; texts such as `1.0`, `1e3`, `0x10` or `Infinity`, which `Number` also reads, give NaN here.
- Validation.CoercedInt: through NumberOf, rejects the texts `1.0`, `1e3` and `0x10`, which Zod accepts as integers.
- Utils.Truncate: works on UTF-16 code units rather than on text, because a cut can fall inside a surrogate pair; `Utils.TruncateBmp` relates it back to text.
- Mongoose casting and schema validators are not modelled; the `required` check that refuses an empty user name is one of them. Timestamps come from the `now` parameter. The order of records with equal sort keys is the order they were inserted in.
- `path.join` is Node's POSIX flavour; Windows separators and drive letters are not modelled. The shape of a joined path is proved for a normalised absolute directory, which `path.join(process.cwd(), 'uploads')` is.
- `localStorage` writes in the auth store, JSON serialisation and the valtio proxy are not modelled.
- Auth.AuthService.CreateRefreshToken: requires the new token to be unused, because the random 64-byte token is a parameter here.
- Auth.AuthService.RotateRefreshToken: uses one `now` for the expiry check and for the new token's expiry.
- Objects are values in the stores, the queue and the AI records, so aliasing through shared job objects is not modelled.
- Queue.JobQueue.Dispatch: the `setImmediate` callbacks are not modelled. Any queued job may be dispatched, so FIFO order is not captured. The requires that the job still be queued reflects that each id is dispatched once.
- Queue.JobQueue.Complete: the handler's run is the `outcome` parameter. It settles only a job that is processing.
- Queue.JobQueue.Dispatch, Queue.JobQueue.Complete: the `job:processing` and `job:completed` events are emitted inside the `try` (packages/backend-queue/src/index.js:64-74). A listener that throws would send the job to `failed`. Here listeners cannot throw, and each event only records the job. The worker's listeners only log.
- Replicate.RunPrediction: the two-second sleeps are not modelled. The lazily cached client is not modelled either.
- Gemini.StreamContent: the generator's laziness is not modelled, and neither is a consumer that stops reading early. It reads the whole chunk list.
- Realtime: transport, CORS and each socket's own default room are not modelled. Ids in payloads are strings.
- AiProcessor.ProcessAIJob: assumes the record updates succeed and that `model` is a string.
- Projects.ProjectStore.Get: returns soft-deleted projects too, as the source does.
- Projects.ListPage: requires page and limit of at least 1, which the pagination schema guarantees before the call.
- Storage: `getFileStream` (packages/backend-storage/src/index.js:55-58) opens a read stream and is I/O only.
- MediaRoutes.MediaLibrary.Upload: the 201 response body and the upload directory's creation at start-up (apps/sym/backend/src/routes/media.routes.js:11-15) are not modelled. Multer's partial-write clean-up is not modelled.
- MediaProcessor.ProcessMediaJob: input and output paths are strings. The TypeError a missing `outputPath` would raise at `lastIndexOf` is not modelled.
- ValidateMiddleware.Request.Validate: `safeParse` is the parameter `parse`. `SafeParse` connects it to the Validation schemas.
- FrontendState.Merge: only object sources are modelled. `Object.assign` also copies a string source's characters and an array source's elements under the keys "0", "1", …; here such a source contributes nothing. The store's callers pass objects.
- FrontendState.NotificationEntry: only object notifications are modelled. A spread string or array would add index keys "0", "1", …; here it adds nothing, and only the generated `id` is kept.

## Findings

| source | as written | input that shows it | evidently intended | confidence | as-written member | corrected member |
|---|---|---|---|---|---|---|
| apps/sym/backend/src/routes/media.routes.js:102-107 | `GET /file/:key` serves `path.join(uploadDir, req.params.key)` whenever a file exists there; Express decodes `%2F` in the parameter, so `..` segments reach `path.join`, which resolves them | an authenticated `GET /file/..%2F..%2Fetc%2Fpasswd` with the upload directory `/app/uploads` serves `/etc/passwd` | only files directly inside the upload directory are served; any other key is 404 | high; not executed | MediaRoutes.ServeFileAsWritten, MediaRoutes.TraversalEscapesUploadDir | MediaRoutes.ServeFile, MediaRoutes.ServedIsInsideUploadDir |
