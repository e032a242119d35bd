# Animation job backend — a verified model

This project models the logic at the centre of an Express backend that turns a text prompt into
an animation video. The pieces modelled are:

- **The job lifecycle.** `createJob` inserts a PENDING job. Its background run `processJobAsync`
  generates Manim code with an LLM backend and hands the code to a render service. The completion
  webhook `handleJobCompletion` either records the video or spends one unit of the job's retry
  budget and then regenerates or fails the job.
- **The read-side handlers.** These are job status, the download link and the paginated video
  list.
- **Code-generation post-processing.** This covers backend selection, error wrapping, the
  complexity score, the render-time estimate and the prompt fragments.
- **Object-key extraction** for stored video locators.
- **The request guards.** These are the webhook shared key, the API auth guard, the find-or-create
  user sync with its username fallback chain, and the profile endpoints.

The modules are:

- `Wrappers`, `Http` and `Text` hold `Option`/`Result`, error replies, and the JavaScript string
  operations the code relies on (truthiness, `trim`, `split`/`join`, `includes`, `toUpperCase`).
- `LLMService` is `multiLLMService.ts`.
- `S3Service` is `s3Service.ts`.
- `WebhookAuth` is `webhookAuth.ts`.
- `UserTable` and `Auth` cover the `user` table and `auth.ts`.
- `AuthController` is `authController.ts`.
- `JobStore` holds the job and video tables plus the `Database` class, whose methods write one row
  at a time.
- `JobController` is `jobController.ts`.
- `JobProperties` holds the properties that span several requests.

The handlers that write are imperative methods over `Database` or `Users`. Each one's resulting
state is stated through a pure function on a snapshot: `Submit`, `ProcessJob`, `Webhook`, `Sync`
and `Update`. The lemmas are stated about those functions. What `Submit`, `Webhook` and
`ProcessJob` do, case by case, is stated by the lemmas `SubmitOutcomes`, `WebhookOutcomes` and
`ProcessJobOutcome`.

External effects are inputs:

- the LLM call is a function from backend and prompt to a reply;
- the render service's answer is a `RenderAck`;
- Clerk is an `AuthState` plus an optional `ClerkUser`;
- URL parsing and presigning are functions in `S3Env`;
- UUIDs are fresh keys, and clocks are integer timestamps.

The schema's initial `retryLeft` is not visible, so it is the `retryDefault` parameter of
`Database`.

The model follows the code as written, which differs from the intended lifecycle in several ways:

- **The job's status is never consulted by the webhook.** A repeated success report adds a second
  video (`RepeatedCompletionAddsSecondVideo`), unless the schema, which is not part of this model,
  makes a video's `jobId` unique; then the second insert would throw instead. A failure report after completion moves the job out
  of COMPLETED while its video stays linked (`FailureAfterCompletionReopensJob`). Each repeated
  failure decrements the counter again (`RepeatedFailureDecrementsAgain`).
- **A render-service refusal or transport error fails the job without touching `retryLeft`.**
  The retry budget is spent by the webhook alone (`ProcessJob`).
- **A budget of `n` allows at most `n - 1` regenerations, not `n`.** A failure regenerates only
  while `(retryLeft || 0) - 1` stays positive (`RetriesAtMostBudgetLessOne`).
- **The rewritten retry prompt is only passed to the new run.** It is never stored on the job,
  and the retry always uses the OpenAI backend with an empty config (`FailAttempt`).
- **A run started by `createJob` defaults to the Gemini backend.** `processJobAsync` passes
  `llm || 'gemini'`. The service's own default, OpenAI, is reached only by direct callers.
- **`createJob` stores the trimmed prompt but generates from the prompt as sent.**
- **The video id is written to the job in a separate write after the video is created.**

## Model

| member | source | states |
|---|---|---|
| Text.Trim | src/controllers/jobController.ts:20 | `trim()` removes exactly the leading and trailing white space: the result is a slice with non-space ends, and it is empty iff the text is all white space |
| Text.Split | src/services/s3Service.ts:55 | `split(c)` yields one more piece than there are separators; no piece contains the separator, and joining the pieces with it gives back the text |
| Text.SplitOfJoin | src/services/s3Service.ts:57 | splitting a join of separator-free pieces gives back the pieces |
| Text.ContainsTransitive | src/services/multiLLMService.ts:217 | a substring of a substring is a substring |
| Text.Prefix | src/controllers/jobController.ts:227 | `substring(0, n)` is the first `n` characters, or the whole text when it is shorter |
| LLMService.QualityInstructions | src/services/multiLLMService.ts:191-202 | one fixed sentence each for high, medium and low, and the default sentence exactly for anything else |
| LLMService.DurationInstructions | src/services/multiLLMService.ts:71-73 | the duration sentence is empty exactly when the duration is missing or zero |
| LLMService.UserPrompt | src/services/multiLLMService.ts:75-80 | the user message is the prompt, a blank line, the quality sentence, a newline, the duration sentence (empty without a duration) and the fixed request for Manim code, each recoverable as a slice |
| LLMService.DurationShapesPrompt | src/services/multiLLMService.ts:71-80 | the duration changes the prompt exactly when it is truthy |
| LLMService.MarkerPoints | src/services/multiLLMService.ts:216-220 | each marker present adds its weight once, so the points lie between 0 and weight × markers |
| LLMService.LineCount | src/services/multiLLMService.ts:212 | the line count is the number of newlines plus one |
| LLMService.Score | src/services/multiLLMService.ts:211-225 | the complexity score always lies in 0..24 |
| LLMService.ReplacementTransformCountsTwice | src/services/multiLLMService.ts:207-217 | code containing `ReplacementTransform` also matches `Transform`, scores at least 4 and is never simple |
| LLMService.AnalyzeCodeComplexity | src/services/multiLLMService.ts:204-230 | the nested loops accumulate exactly the specified score, then classify it (≤3 simple, ≤7 medium, else complex) |
| LLMService.Round | src/services/multiLLMService.ts:250 | `Math.round` gives the integer within half a unit, halves rounded up |
| LLMService.EstimateRenderTime | src/services/multiLLMService.ts:232-251 | the step-by-step estimate is the exact base × quality factor + 2 × duration, rounded to the nearest integer |
| LLMService.RoundShift | src/services/multiLLMService.ts:247-250 | rounding commutes with adding a whole number of seconds |
| LLMService.DurationAddsTwoPerSecond | src/services/multiLLMService.ts:246-248 | a truthy duration adds exactly two seconds per second, and otherwise nothing |
| LLMService.RenderTimeRange | src/services/multiLLMService.ts:233-243 | without a duration the estimate lies between 11 and 90 seconds |
| LLMService.Generation | src/services/multiLLMService.ts:33-65 | every failure (an unsupported choice, a failed call, no string `code`) is the one wrapped message naming the choice in upper case; success uses the chosen backend's code and the analysed complexity and time |
| LLMService.GenerateManimCode | src/services/multiLLMService.ts:33-65 | the dispatch method computes exactly `Generation` |
| LLMService.StatusNeverInspected | src/services/multiLLMService.ts:49-60 | replies that agree on `code` give the same outcome, whatever their `status` |
| S3Service.NonEmptyParts | src/services/s3Service.ts:55 | the filter drops every empty part, keeps each other part as many times as it occurs, and returns a list without empty parts unchanged |
| S3Service.NonEmptyPartsAppend | src/services/s3Service.ts:55 | the filter distributes over concatenation, so the kept parts stay in their order |
| S3Service.Segments | src/services/s3Service.ts:55 | the pathname's segments are non-empty and contain no `/` |
| S3Service.RootSegments | src/services/s3Service.ts:55 | the root path `/` has no segments |
| S3Service.SegmentsOfPath | src/services/s3Service.ts:55 | `/` followed by non-empty, slash-free segments joined with `/` has exactly those segments, in order |
| S3Service.ExtractKey | src/services/s3Service.ts:50-63 | MinIO mode: the key is the segments after the bucket joined by `/`, it has no empty segment, and it is empty iff at most one segment exists; AWS mode: the pathname minus its first character |
| S3Service.GeneratePresignedVideoUrl | src/services/s3Service.ts:28-48 | succeeds iff parsing and signing the extracted key both succeed, with a default lifetime of 3600; any failure is the single wrapped message |
| WebhookAuth.RequireWebhookAuth | src/middleware/webhookAuth.ts:3-27 | passes iff a non-empty header equals the non-empty configured key; a missing header is a 401 before the configuration is looked at, an unconfigured key a 500, a wrong key a 401 |
| WebhookAuth.UnconfiguredRejectsAll | src/middleware/webhookAuth.ts:14-17 | without a configured key no request passes |
| WebhookAuth.MissingHeaderHidesConfiguration | src/middleware/webhookAuth.ts:7-12 | a request without the header gets the same answer whether or not the key is configured |
| UserTable.Find | src/middleware/auth.ts:30-32 | the lookup finds a row iff the Clerk id has one, and what it finds is that row |
| UserTable.Insert | src/middleware/auth.ts:35-41 | the insert adds one row with the next id and the given fields, changes no other row and keeps the table keyed |
| UserTable.Rename | src/controllers/authController.ts:52-55 | the update fails when there is no row; otherwise only that row's username changes |
| UserTable.Users.Create | src/middleware/auth.ts:35-41 | the table after the insert is `Insert` of the table before |
| UserTable.Users.UpdateUsername | src/controllers/authController.ts:52-55 | the table after the update is `Rename` of the table before, or unchanged |
| Auth.RequireApiAuth | src/middleware/auth.ts:60-82 | passes iff there is a Clerk user id; a missing id and a failing `getAuth` give their two 401 replies |
| Auth.LocalPart | src/middleware/auth.ts:27 | `split('@')[0]` is the longest prefix free of `@`: all of the email when it has none, else the text before the first `@` |
| Auth.DeriveUsername | src/middleware/auth.ts:27 | the Clerk username, else a non-empty local part, else `user_<now>`; each fallback is taken on a falsy value, and the result is never empty |
| Auth.EmptyLocalPartFallsThrough | src/middleware/auth.ts:27 | an email that starts with `@` falls through to the timestamp |
| Auth.Sync | src/middleware/auth.ts:16-58 | no user id: continue untouched; Clerk failure: `next(error)`; a signed-in user with a Clerk record and an existing row continues with `req.user` set to that row and the table unchanged; a row is created only when none exists and there is an email; `req.user` is the row found or created |
| Auth.SyncUser | src/middleware/auth.ts:16-58 | the method's outcome and resulting table are exactly `Sync` |
| Auth.SyncIdempotent | src/middleware/auth.ts:30-42 | syncing twice with the same Clerk data changes nothing more and sets the same `req.user` |
| AuthController.GetProfile | src/controllers/authController.ts:6-35 | 401 without a user id, 500 when Clerk fails; otherwise the Clerk fields and the request's user unchanged |
| AuthController.Update | src/controllers/authController.ts:37-70 | 401 without a user id; 400 for a missing name or one shorter than 3 once trimmed, with no write; 500 without a row; otherwise only that row's username becomes the trimmed name, and it is echoed |
| AuthController.UpdateProfile | src/controllers/authController.ts:37-70 | the method's reply and resulting table are exactly `Update` |
| AuthController.StoredUsernameIsClean | src/controllers/authController.ts:47-54 | a stored username has at least 3 characters, no white space at either end, and is its own trim |
| AuthController.UpdatedName | src/controllers/authController.ts:47-54 | a successful update had a valid name and stores its trim |
| AuthController.TrimmedNameIsClean | src/controllers/authController.ts:47-54 | a trim of three or more characters is clean |
| AuthController.TrimIdempotent | src/controllers/authController.ts:54 | trimming twice is trimming once |
| AuthController.UpdateIdempotent | src/controllers/authController.ts:51-55 | repeating a successful rename leaves the table as the first one did |
| JobStore.NewJob | src/controllers/jobController.ts:31-38 | the inserted row has the given UUID, owner and prompt, status PENDING, the default budget, the creation time, and no code, error, completion time or video |
| JobStore.NewJobConsistent | src/controllers/jobController.ts:31-38 | inserting a fresh job keeps the store consistent |
| JobStore.Database.InsertJob | src/controllers/jobController.ts:31-38 | the job table gains exactly the new row |
| JobStore.Database.PutJob | src/controllers/jobController.ts:63-66 | an update replaces exactly one job row |
| JobStore.Database.InsertVideo | src/controllers/jobController.ts:223-231 | a video is appended with the next id |
| JobController.DispatchFailure | src/controllers/jobController.ts:99-121 | dispatch counts as failed unless the ack says `queued`; a refused response gives `Python service error: <statusText>`, an ack gives `error_message \|\| 'Video generation failed'`, a thrown error gives its message |
| JobController.ProcessJob | src/controllers/jobController.ts:60-135 | a run writes only status, code and message, never `retryLeft` or the prompt, and ends PROCESSING or FAILED |
| JobController.ProcessJobOutcome | src/controllers/jobController.ts:60-135 | a generation error gives FAILED with the wrapped message naming the backend; otherwise the code is stored, and the job stays PROCESSING iff the dispatch was queued, else FAILED with the dispatch message |
| JobController.ProcessJobAsync | src/controllers/jobController.ts:60-135 | the successive writes leave the job row equal to `ProcessJob` of the row before, and nothing else changes |
| JobController.RecordDispatch | src/controllers/jobController.ts:107-131 | after the render service answers, the row is left as it is when the job was queued and is otherwise FAILED with the dispatch message; nothing else changes |
| JobController.SubmitOutcomes | src/controllers/jobController.ts:13-57 | 401 without a user and 400 for a missing or blank prompt, with no job created; otherwise the reply is the new UUID, one job is added with the caller's id and trimmed prompt, and it is processed with the prompt as sent |
| JobController.CreateJob | src/controllers/jobController.ts:13-57 | the handler plus its background run reply and leave the store exactly as `Submit`, and keep it consistent |
| JobController.AcceptJob | src/controllers/jobController.ts:28-48 | the insert and the run of an accepted request leave the store as `Submit` and consistent |
| JobController.AcceptedStore | src/controllers/jobController.ts:31-48 | (proof step for `AcceptJob`) inserting the PENDING row and then overwriting it with its run is the store `Submit` describes, and it is consistent |
| JobController.Added | src/controllers/jobController.ts:31-38 | adding a job under a fresh UUID adds exactly that key, keeps every other row and the videos, and advances the id counter |
| JobController.AddedConsistent | src/controllers/jobController.ts:31-48 | adding a job with the next id, its own fresh UUID, no video and a status other than COMPLETED keeps the store consistent |
| JobController.SubmitAccepted | src/controllers/jobController.ts:28-48 | (proof step for `SubmitOutcomes`) an accepted submission answers with the UUID and adds exactly the new job after its run |
| JobController.Title | src/controllers/jobController.ts:227 | the video title is `Video for `, then the prompt's first 30 characters (all of it when shorter), then `...`, each recoverable as a slice, so never longer than 43 |
| JobController.Complete | src/controllers/jobController.ts:215-237 | the success path: the job becomes COMPLETED at `now` and is linked to one appended video that carries its owner, UUID, title, `generatedCode \|\| ''` and the url; nothing else changes |
| JobController.FailAttempt | src/controllers/jobController.ts:242-265 | `retryLeft` becomes `(retryLeft \|\| 0) - 1`; while that is positive the job is rerun on OpenAI with no config and the error-context prompt, otherwise it is FAILED with `error_message \|\| 'Unknown error'` |
| JobController.WebhookOutcomes | src/controllers/jobController.ts:200-273 | no UUID gives 500 and an unknown UUID gives 404, both with no writes; otherwise `{success: true}`, with only that job changed and no job added or removed; the success path (`Complete`) is taken iff the status is `completed` and the url is truthy, and the failure path is one failed attempt that leaves the videos alone |
| JobController.HandleJobCompletion | src/controllers/jobController.ts:200-273 | the handler's writes and reply are exactly `Webhook`, and they keep the store consistent |
| JobController.RecordCompletion | src/controllers/jobController.ts:215-237 | the three writes of the success path leave the store as `Complete` |
| JobController.RecordFailure | src/controllers/jobController.ts:239-265 | the writes of the failure path leave the job row as `FailAttempt` and change nothing else |
| JobController.ReplaceJobConsistent | src/controllers/jobController.ts:243-263 | rewriting a job's status, code, message or budget keeps the store consistent |
| JobController.ProcessJobConsistent | src/controllers/jobController.ts:60-135 | a run keeps the store consistent |
| JobController.CompleteConsistent | src/controllers/jobController.ts:215-237 | the success path keeps the store consistent: the new video names its job and owner, and the job links it |
| JobController.WebhookConsistent | src/controllers/jobController.ts:200-273 | every webhook delivery keeps the store consistent |
| JobController.Progress | src/controllers/jobController.ts:168-173 | the progress is 100 exactly for COMPLETED and 0 exactly for FAILED, always within 0..100 |
| JobController.FindOwnedJob | src/controllers/jobController.ts:150-158 | a job is found iff both its UUID and its owner match |
| JobController.GetJobStatus | src/controllers/jobController.ts:137-198 | 401, then 400 without a UUID, then 404 unless the caller owns the job; otherwise the job's fields and progress, with the video fields present exactly when `videoId` is set |
| JobController.FindOwnedVideo | src/controllers/jobController.ts:290-295 | a video is found iff both its id and its owner match |
| JobController.GetVideoUrl | src/controllers/jobController.ts:277-322 | 401, then 400 without an id, then 404 unless the caller owns the video; otherwise, exactly when the caller owns the video and signing succeeds, a link signed with the default hour, `expires_in` 3600, and the video's id and title; an owned video whose signing fails is the 500 reply |
| JobController.Summaries | src/controllers/jobController.ts:338-344 | the selected columns of each video, in order |
| JobController.Owned | src/controllers/jobController.ts:334 | exactly the caller's videos: each of them as many times as it is stored, and no other |
| JobController.OwnedAppend | src/controllers/jobController.ts:334 | the owner filter distributes over concatenation, so the caller's videos keep their store order |
| JobController.InsertNewest | src/controllers/jobController.ts:335 | inserting into a newest-first list keeps it newest first and adds exactly that video |
| JobController.SortNewest | src/controllers/jobController.ts:335 | the ordering is newest first and a permutation of its input |
| JobController.Page | src/controllers/jobController.ts:336-337 | `skip`/`take`: the slice after `offset`, of at most `limit` items |
| JobController.GetUserVideos | src/controllers/jobController.ts:325-370 | 401 without a user; otherwise the page of the caller's videos newest first, with defaults 10 and 0; `total` counts all of them, and `hasMore` is `offset + limit < total`, which holds exactly when videos remain beyond the page |
| JobProperties.WebhookSpendsBudget | src/controllers/jobController.ts:242-255 | one delivery spends at most one unit of a job's budget, and only when it regenerates that job |
| JobProperties.RegenerationBound | src/controllers/jobController.ts:242-255 | over any sequence of deliveries, the regenerations of a job plus its remaining budget never exceed its initial budget |
| JobProperties.RetriesAtMostBudgetLessOne | src/controllers/jobController.ts:242-248 | a job starting with `retryLeft` n is regenerated at most n - 1 times |
| JobProperties.VideosOf | src/controllers/jobController.ts:223-231 | the videos produced by one job: each names that job's UUID |
| JobProperties.VideosOfAppend | src/controllers/jobController.ts:223-231 | an appended video counts for its own job only |
| JobProperties.NoVideosOfUnknownJob | src/controllers/jobController.ts:28-38 | a job not yet in a consistent store has no videos |
| JobProperties.RepeatedCompletionAddsSecondVideo | src/controllers/jobController.ts:207-237 | a success report delivered twice creates two videos for the job |
| JobProperties.FailureAfterCompletionReopensJob | src/controllers/jobController.ts:207-265 | a failure report after completion takes the job out of COMPLETED while its video stays linked |
| JobProperties.RepeatedFailureDecrementsAgain | src/controllers/jobController.ts:242-246 | two failure reports decrement `retryLeft` twice |
| JobProperties.StatusHidesOtherUsersJobs | src/controllers/jobController.ts:150-165 | another user's job gets the same 404 as a missing one |
| JobProperties.VideoUrlHidesOtherUsersVideos | src/controllers/jobController.ts:290-303 | another user's video gets the same 404 as a missing one |
| JobProperties.ListingShowsOnlyOwnVideos | src/controllers/jobController.ts:333-345 | every listed video is a stored video of the caller |
| JobProperties.OwnedVideoIsStored | src/controllers/jobController.ts:333-334 | an owned video is stored under its own id |
| JobProperties.CompletedStatusShowsVideo | src/controllers/jobController.ts:176-189 | a completed job's status shows progress 100 and the video it produced |
| JobProperties.QueuedRun | src/controllers/jobController.ts:71-108 | when the selected backend returns code and the render service queues, a run leaves the job PROCESSING with its budget untouched |
| JobProperties.CircleRequest | src/controllers/jobController.ts:19-25 | the prompt `draw a circle` is accepted |
| JobProperties.CircleSubmitted | src/controllers/jobController.ts:28-48 | (proof step for `QueuedSubmission`) the store after that prompt's submission and first run |
| JobProperties.SubmitConsistent | src/controllers/jobController.ts:13-57 | every submission, accepted or refused, keeps the store consistent |
| JobProperties.QueuedSubmission | src/controllers/jobController.ts:28-48 | when Gemini returns code and the render service queues, the submitted job is stored under its UUID, PROCESSING, with its full budget |
| JobProperties.FailurePath | src/controllers/jobController.ts:239-265 | a failure report for a stored job leaves the videos alone and writes that job's row as one failed attempt |
| JobProperties.QueuedRetry | src/controllers/jobController.ts:242-254 | a failure report for a job with at least two attempts left regenerates it with one attempt spent, and when OpenAI returns code and the render service queues, it is PROCESSING again |
| JobProperties.FinalFailure | src/controllers/jobController.ts:242-263 | a failure report for a job with at most one attempt left fails it for good, without regeneration |
| JobProperties.SuccessAddsOneVideo | src/controllers/jobController.ts:213-237 | a success report completes the job and gives it exactly one more video |
| JobProperties.CompleteJobUuid | src/controllers/jobController.ts:226 | the appended video names the completed job |
| JobProperties.RetryThenSuccess | src/controllers/jobController.ts:13-273 | budget 3, two failures and then a success: two regenerations, COMPLETED with `retryLeft` 1, and exactly one video |
| JobProperties.GenerationRejectionFailsAtOnce | src/controllers/jobController.ts:71-131 | when the default Gemini backend returns no code, the job is FAILED at once with the GEMINI message and its budget untouched |
| JobProperties.GeminiMessage | src/services/multiLLMService.ts:64 | the wrapped message for the default backend names GEMINI |
| JobProperties.GeminiRejection | src/services/multiLLMService.ts:41-63 | a run on the default backend that yields no code fails with the GEMINI message |
| JobProperties.SingleRetryFailsAtFirstReport | src/controllers/jobController.ts:242-263 | budget 1: the first failure fails the job with `retryLeft` 0, and a second takes it to -1, with neither regenerating |

## Left out

- Logging: every `console.*` call, including the key prefix the webhook guard logs.
- Concurrency and Prisma transactions: the background runs that `createJob` and the webhook fire
  without awaiting happen to completion, in order, before the next request. No interleaving, and
  no atomicity of the `$transaction`, is modelled.
- Database failures: a Prisma call that throws for reasons other than a missing row is not
  modelled. The 500 replies of `createJob`, `getJobStatus` and `getUserVideos` (and the FAILED
  write in `processJobAsync`'s catch block when the store itself fails) are absent.
- The schema: `retryLeft`'s default is a parameter, and unique constraints such as one video per
  job are not visible. Job ids are one-to-one with UUIDs, so rows are keyed by UUID.
- `uuidv4()`, `new Date()` and `Date.now()` are inputs: a fresh key and integer timestamps.
  Date formatting to ISO strings is left out.
- The LLM SDK calls and the system prompt are a function from backend and user message to a reply.
  The JSON parse of that reply is folded into the reply's shape.
- The render service's `fetch` is a `RenderAck` input.
- `getAuth`, `clerkClient.users.getUser`, `new URL` and `getSignedUrl` are inputs.
- LLMService.EstimateRenderTime: the estimate uses exact reals, not IEEE doubles, so a double's
  rounding error near a half is not captured. Durations are integers.
- JobController.GetUserVideos: `limit` and `offset` are natural numbers. `Number()` of a
  non-numeric or negative query value is not modelled.
- JobController.GetVideoUrl: the video id is an integer already. `parseInt` of the parameter,
  and a NaN id, are not modelled.
- Text.Upper: only ASCII letters are upper-cased, as `toUpperCase` does for the backend names;
  other scripts are not modelled.
- Request bodies are typed: a JSON field of the wrong type (a number for the prompt, say) is not
  modelled.
- JobController.Webhook: a report without `job_uuid` is modelled as the 500 reply, the outcome of
  Prisma rejecting the lookup.
- JobController.RetryPrompt: a JSON `null` error message and a missing one are both `None` and
  print as `undefined`.
- JobController.SortNewest: the order among videos with the same `createdAt` is the insertion
  sort's. The database's order for ties is not modelled.
- The video table is a sequence in id order, because autoincrement ids are never reused.
- JobController.GetJobStatus: the `include: { video: true }` of the job lookup is modelled as a
  lookup of the video whose id is the job's `videoId`.
- Text.Prefix: strings are sequences of Unicode code points, while JavaScript's `substring`
  counts UTF-16 code units. For text outside the Basic Multilingual Plane (emoji, say) the model
  keeps more characters than the source, and never splits a surrogate pair as the source can.
- JobController.Title: the 30-character cut counts code points, not UTF-16 code units, as for
  `Text.Prefix`.
- AuthController.ValidUsername: the three-character minimum counts code points, while `.length`
  counts UTF-16 code units, so a trimmed name such as one emoji and one letter (length 3 in the
  source) is rejected by the model.
- AuthController.Update: inherits that difference from `ValidUsername`.
- The Express wiring in `src/app.ts`, `src/server.ts` and `src/routes/*.ts` is not part of this
  model. Neither are the type declarations in `src/types/index.ts`, which have no behaviour.
