/**
  The job controller: creating a job and processing it (generate, then dispatch to the render
  service), the render service's completion webhook, and the owner-scoped reads (job status,
  video download link, video listing).

  The writing handlers are methods over a `Database` whose resulting state is stated through
  the functions `Submit`, `ProcessJob` and `Webhook` on snapshots; the reads are functions of
  a snapshot. The background `processJobAsync` call runs to completion inside the handler that
  starts it. What the render service and the LLM backend answer is the input `Env`.
*/
module JobController {
  import opened Wrappers
  import opened Text
  import opened Http
  import UserTable
  import opened LLMService
  import opened S3Service
  import opened JobStore

  const NotAuthenticated := ErrorReply(401, "User not authenticated", None)

  // ---------------------------------------------------------------------------
  // processJobAsync
  // ---------------------------------------------------------------------------

  /**
    The render service's immediate answer to the dispatch: the `fetch` or the JSON parse threw
    (with that error's message), the response was not `ok`, or the parsed acknowledgment with its
    `status` and `error_message` fields.
  */
  datatype RenderAck =
    | Threw(message: string)
    | NotOk(statusText: string)
    | Acked(status: Option<string>, errorMessage: Option<string>)

  /** Everything outside the store that one processing run consults: the LLM backends and the render service. */
  datatype Env = Env(llm: (Backend, string) -> BackendReply, ack: RenderAck)

  /** The failure message a dispatch answer records, or `None` when the job was queued. */
  function DispatchFailure(ack: RenderAck): (r: Option<string>)
    ensures r.None? <==> ack.Acked? && ack.status == Some("queued")
    ensures ack.Threw? ==> r == Some(ack.message)
    ensures ack.NotOk? ==> r == Some("Python service error: " + ack.statusText)
    ensures ack.Acked? && ack.status != Some("queued") ==> r == Some(Or(ack.errorMessage, "Video generation failed"))
  {
    match ack
    case Threw(message) => Some(message)
    case NotOk(statusText) => Some("Python service error: " + statusText)
    case Acked(status, errorMessage) =>
      if status == Some("queued") then None else Some(Or(errorMessage, "Video generation failed"))
  }

  /** The request `processJobAsync` sends to the generation service: the backend defaults to Gemini here. */
  function GenerationRequest(prompt: string, config: Config, llm: Option<string>): CodeRequest {
    CodeRequest(prompt, config, Some(Or(llm, "gemini")))
  }

  /**
    `processJobAsync` on one job row: the row after the run. Only `status`, `generatedCode` and
    `errorMessage` are written (never `retryLeft`, nor the prompt the run used); the job ends
    PROCESSING when the render service queued it and FAILED otherwise.
  */
  function ProcessJob(job: Job, prompt: string, config: Config, llm: Option<string>, env: Env): (j: Job)
    ensures j == job.(status := j.status, generatedCode := j.generatedCode, errorMessage := j.errorMessage)
    ensures j.status == Processing || j.status == Failed
  {
    Settle(job.(status := Processing), Generation(GenerationRequest(prompt, config, llm), env.llm), env.ack)
  }

  /**
    What a run leaves, by what generation produced: a generation error gives FAILED with the
    wrapped message naming the backend; otherwise the code is stored, and the job stays
    PROCESSING exactly when the render service queued it, else it is FAILED with the dispatch
    failure's message.
  */
  lemma ProcessJobOutcome(job: Job, prompt: string, config: Config, llm: Option<string>, env: Env)
    ensures var j := ProcessJob(job, prompt, config, llm, env);
      var g := Generation(GenerationRequest(prompt, config, llm), env.llm);
      && (g.Err? ==> j == job.(status := Failed, errorMessage := Some(FailureMessage(Or(llm, "gemini")))))
      && (g.Ok? ==>
            && j.generatedCode == Some(g.value.generatedCode)
            && (j.status == Processing <==> DispatchFailure(env.ack).None?)
            && (j.status == Processing ==> j.errorMessage == job.errorMessage)
            && (j.status == Failed ==> j.errorMessage == DispatchFailure(env.ack)))
  {
    var req := GenerationRequest(prompt, config, llm);
    assert Choice(req.llm) == Or(llm, "gemini");
  }

  /** The writes after the PROCESSING one, given what generation produced and what the render service answered. */
  function Settle(running: Job, generated: Result<CodeResult, string>, ack: RenderAck): Job {
    match generated
    case Err(message) => running.(status := Failed, errorMessage := Some(message))
    case Ok(result) => Dispatched(running.(generatedCode := Some(result.generatedCode)), ack)
  }

  /** The write, if any, after the render service answered the dispatch of a job. */
  function Dispatched(coded: Job, ack: RenderAck): Job {
    match DispatchFailure(ack)
    case None => coded
    case Some(message) => coded.(status := Failed, errorMessage := Some(message))
  }

  /** `processJobAsync`: the successive writes to the job row. */
  method ProcessJobAsync(db: Database, jobUuid: string, prompt: string, config: Config, llm: Option<string>, env: Env)
    requires jobUuid in db.jobs && db.jobs[jobUuid].jobUuid == jobUuid
    modifies db
    ensures db.jobs == old(db.jobs)[jobUuid := ProcessJob(old(db.jobs[jobUuid]), prompt, config, llm, env)]
    ensures db.videos == old(db.videos) && db.nextJobId == old(db.nextJobId)
  {
    ghost var before := db.jobs;
    var job := db.jobs[jobUuid].(status := Processing);
    db.PutJob(job);
    var codeResult := GenerateManimCode(GenerationRequest(prompt, config, llm), env.llm);
    assert ProcessJob(before[jobUuid], prompt, config, llm, env) == Settle(job, codeResult, env.ack);
    if codeResult.Err? {
      var failed := job.(status := Failed, errorMessage := Some(codeResult.error));
      db.PutJob(failed);
      Overwrite(before, jobUuid, job, failed);
      return;
    }
    var coded := job.(generatedCode := Some(codeResult.value.generatedCode));
    db.PutJob(coded);
    Overwrite(before, jobUuid, job, coded);
    RecordDispatch(db, coded, env.ack);
    Overwrite(before, jobUuid, coded, Dispatched(coded, env.ack));
  }

  /** The last step of `processJobAsync`: FAILED with a message unless the render service queued the job. */
  method RecordDispatch(db: Database, job: Job, ack: RenderAck)
    requires job.jobUuid in db.jobs && db.jobs[job.jobUuid] == job
    modifies db
    ensures db.jobs == old(db.jobs)[job.jobUuid := Dispatched(job, ack)]
    ensures db.videos == old(db.videos) && db.nextJobId == old(db.nextJobId)
  {
    match ack {
      case Threw(message) =>
        db.PutJob(job.(status := Failed, errorMessage := Some(message)));
      case NotOk(statusText) =>
        db.PutJob(job.(status := Failed, errorMessage := Some("Python service error: " + statusText)));
      case Acked(status, errorMessage) =>
        if status != Some("queued") {
          db.PutJob(job.(status := Failed, errorMessage := Some(Or(errorMessage, "Video generation failed"))));
        } else {
          assert db.jobs == db.jobs[job.jobUuid := job];
        }
    }
  }

  // ---------------------------------------------------------------------------
  // createJob
  // ---------------------------------------------------------------------------

  const PromptRequired := ErrorReply(400, "Prompt is required", Some("Please provide a valid animation prompt"))

  /** The body of a job request. */
  datatype JobRequest = JobRequest(prompt: Option<string>, config: Config, llm: Option<string>)

  /** A prompt is accepted when it is present and not all white space. */
  predicate ValidPrompt(prompt: Option<string>) {
    Truthy(prompt) && Trim(prompt.value) != ""
  }

  /**
    `createJob` followed by its background run, on a snapshot: the reply and the store afterwards.
    The new job is created PENDING and then processed.
  */
  function Submit(t: Tables, retryDefault: Option<int>, user: Option<UserTable.User>, body: JobRequest,
                  jobUuid: string, now: int, env: Env): (Result<string, ErrorReply>, Tables)
    requires jobUuid !in t.jobs
  {
    if user.None? then (Err(NotAuthenticated), t)
    else if !ValidPrompt(body.prompt) then (Err(PromptRequired), t)
    else
      var job := NewJob(t.nextJobId, jobUuid, user.value.id, Trim(body.prompt.value), now, retryDefault);
      (Ok(jobUuid), Added(t, jobUuid, ProcessJob(job, body.prompt.value, body.config, body.llm, env)))
  }

  /**
    What one submission answers and leaves, by case: 401 without a local user and 400 for a
    missing or blank prompt, with the store unchanged; otherwise the reply is the fresh UUID and
    the store gains exactly that job, created with the caller's id, the trimmed prompt and the
    default budget, then processed with the prompt as sent.
  */
  lemma SubmitOutcomes(t: Tables, retryDefault: Option<int>, user: Option<UserTable.User>, body: JobRequest,
                       jobUuid: string, now: int, env: Env)
    requires jobUuid !in t.jobs
    ensures var r := Submit(t, retryDefault, user, body, jobUuid, now, env);
      && (user.None? ==> r == (Err(NotAuthenticated), t))
      && (user.Some? && !ValidPrompt(body.prompt) ==> r == (Err(PromptRequired), t))
      && (r.0.Ok? <==> user.Some? && ValidPrompt(body.prompt))
      && (r.0.Err? ==> r.1 == t)
      && (r.0.Ok? ==>
            && r.0.value == jobUuid
            && r.1.jobs.Keys == t.jobs.Keys + {jobUuid}
            && (forall u :: u in t.jobs ==> r.1.jobs[u] == t.jobs[u])
            && r.1.videos == t.videos && r.1.nextJobId == t.nextJobId + 1
            && r.1.jobs[jobUuid] == ProcessJob(NewJob(t.nextJobId, jobUuid, user.value.id, Trim(body.prompt.value), now, retryDefault),
                                               body.prompt.value, body.config, body.llm, env)
            && r.1.jobs[jobUuid].userId == user.value.id
            && r.1.jobs[jobUuid].prompt == Trim(body.prompt.value)
            && r.1.jobs[jobUuid].retryLeft == retryDefault)
  {
  }

  /** The store with one job added under a fresh UUID. */
  function Added(t: Tables, jobUuid: string, job: Job): (r: Tables)
    requires jobUuid !in t.jobs
    ensures r.jobs.Keys == t.jobs.Keys + {jobUuid} && r.jobs[jobUuid] == job
    ensures forall u :: u in t.jobs ==> r.jobs[u] == t.jobs[u]
    ensures r.videos == t.videos && r.nextJobId == t.nextJobId + 1
  {
    Tables(t.jobs[jobUuid := job], t.videos, t.nextJobId + 1)
  }

  /** Adding a job with the next id, under its own fresh UUID, linked to no video and not COMPLETED, keeps the store consistent. */
  lemma AddedConsistent(t: Tables, job: Job)
    requires Consistent(t) && job.jobUuid !in t.jobs
    requires job.id == t.nextJobId && job.videoId.None? && job.status != Completed
    ensures Consistent(Added(t, job.jobUuid, job))
  {
    var t' := Added(t, job.jobUuid, job);
    forall u | u in t'.jobs && t'.jobs[u].videoId.Some?
      ensures HasVideo(t', t'.jobs[u].videoId.value) && VideoById(t', t'.jobs[u].videoId.value).jobId == u
    {
      assert u != job.jobUuid && t'.jobs[u] == t.jobs[u];
    }
  }

  /** `createJob`: validates, inserts the job, answers with its UUID and runs the background processing. */
  method CreateJob(db: Database, user: Option<UserTable.User>, body: JobRequest, jobUuid: string, now: int, env: Env)
    returns (reply: Result<string, ErrorReply>)
    requires db.Valid() && jobUuid !in db.jobs
    modifies db
    ensures db.Valid()
    ensures (reply, db.Snapshot()) == Submit(old(db.Snapshot()), db.retryDefault, user, body, jobUuid, now, env)
  {
    if user.None? {
      return Err(NotAuthenticated);
    }
    var prompt := body.prompt;
    if !Truthy(prompt) || |Trim(prompt.value)| == 0 {
      return Err(PromptRequired);
    }
    reply := AcceptJob(db, user.value, body, jobUuid, now, env);
  }

  /** The accepted path of `createJob`: insert the PENDING row, answer with its UUID, run it. */
  method AcceptJob(db: Database, user: UserTable.User, body: JobRequest, jobUuid: string, now: int, env: Env)
    returns (reply: Result<string, ErrorReply>)
    requires db.Valid() && jobUuid !in db.jobs && ValidPrompt(body.prompt)
    modifies db
    ensures db.Valid()
    ensures (reply, db.Snapshot()) == Submit(old(db.Snapshot()), db.retryDefault, Some(user), body, jobUuid, now, env)
  {
    var prompt := body.prompt.value;
    ghost var t := db.Snapshot();
    var job := db.InsertJob(jobUuid, user.id, Trim(prompt), now);
    reply := Ok(job.jobUuid);
    ProcessJobAsync(db, job.jobUuid, prompt, body.config, body.llm, env);
    AcceptedStore(t, db.retryDefault, user, body, jobUuid, now, env, job, db.Snapshot());
  }

  /** The store the accepted path leaves is consistent and is the one `Submit` describes. */
  lemma AcceptedStore(t: Tables, retryDefault: Option<int>, user: UserTable.User, body: JobRequest,
                      jobUuid: string, now: int, env: Env, job: Job, s: Tables)
    requires Consistent(t) && jobUuid !in t.jobs && ValidPrompt(body.prompt)
    requires job == NewJob(t.nextJobId, jobUuid, user.id, Trim(body.prompt.value), now, retryDefault)
    requires s == Tables(t.jobs[jobUuid := job][jobUuid := ProcessJob(job, body.prompt.value, body.config, body.llm, env)],
                         t.videos, t.nextJobId + 1)
    ensures Consistent(s) && (Ok(jobUuid), s) == Submit(t, retryDefault, Some(user), body, jobUuid, now, env)
  {
    var run := ProcessJob(job, body.prompt.value, body.config, body.llm, env);
    AddedAfterInsert(t, jobUuid, job, run);
    AddedConsistent(t, run);
    SubmitAccepted(t, retryDefault, user, body, jobUuid, now, env);
  }

  /** Inserting a row and then overwriting it is adding the second row. */
  lemma AddedAfterInsert(t: Tables, jobUuid: string, inserted: Job, job: Job)
    requires jobUuid !in t.jobs
    ensures Tables(t.jobs[jobUuid := inserted][jobUuid := job], t.videos, t.nextJobId + 1) == Added(t, jobUuid, job)
  {
    Overwrite(t.jobs, jobUuid, inserted, job);
  }

  lemma Overwrite<K, V>(m: map<K, V>, k: K, a: V, b: V)
    ensures m[k := a][k := b] == m[k := b]
  {
  }

  /** The state an accepted submission leaves. */
  lemma SubmitAccepted(t: Tables, retryDefault: Option<int>, user: UserTable.User, body: JobRequest,
                       jobUuid: string, now: int, env: Env)
    requires jobUuid !in t.jobs && ValidPrompt(body.prompt)
    ensures var job := NewJob(t.nextJobId, jobUuid, user.id, Trim(body.prompt.value), now, retryDefault);
      Submit(t, retryDefault, Some(user), body, jobUuid, now, env) ==
        (Ok(jobUuid), Added(t, jobUuid, ProcessJob(job, body.prompt.value, body.config, body.llm, env)))
  {
  }

  // ---------------------------------------------------------------------------
  // handleJobCompletion
  // ---------------------------------------------------------------------------

  /** The webhook body: `job_uuid`, `status`, `video_url` and `error_message`. */
  datatype Report = Report(jobUuid: Option<string>, status: Option<string>, videoUrl: Option<string>, errorMessage: Option<string>)

  /** The success path is taken exactly for status `'completed'` with a non-empty video locator. */
  predicate Succeeded(report: Report) {
    report.status == Some("completed") && Truthy(report.videoUrl)
  }

  /** `job.retryLeft || 0`. */
  function RetryBase(retryLeft: Option<int>): int {
    if retryLeft.Some? then retryLeft.value else 0
  }

  /** The title of the video made for a prompt. */
  function Title(prompt: string): (r: string)
    ensures |r| == |"Video for "| + |Prefix(prompt, 30)| + |"..."| && |r| <= 43
    ensures r[..10] == "Video for " && r[10..|r| - 3] == Prefix(prompt, 30) && r[|r| - 3..] == "..."
  {
    "Video for " + Prefix(prompt, 30) + "..."
  }

  /** The prompt of a retry: the previous code and the reported error, as a template literal prints them. */
  function RetryPrompt(generatedCode: Option<string>, errorMessage: Option<string>): string {
    "There is a problem with the generated code: \n        CODE: " + Interpolate(generatedCode, "null")
      + ",\n        ERROR_MESSAGE: " + Interpolate(errorMessage, "undefined")
  }

  /** The webhook's answer: `{ success: true }` or an error response. */
  datatype WebhookReply = Success | Refused(error: ErrorReply)

  /** The store after a webhook delivery, the answer, and whether the job was sent back to generation. */
  datatype WebhookOutcome = WebhookOutcome(tables: Tables, reply: WebhookReply, regenerated: bool)

  const WebhookFailed := ErrorReply(500, "Webhook processing failed", None)

  function JobNotFound(jobUuid: string): ErrorReply {
    ErrorReply(404, "Job " + jobUuid + " not found", None)
  }

  /**
    The success path: the job becomes COMPLETED at `now`, one video is appended carrying the
    job's owner, UUID, a title from its prompt and a snapshot of its code, and its id is then
    linked to the job.
  */
  function Complete(t: Tables, u: string, videoUrl: string, now: int): (r: Tables)
    requires u in t.jobs
    ensures |r.videos| == |t.videos| + 1 && r.videos[..|t.videos|] == t.videos
    ensures r.videos[|t.videos|] == Video(|t.videos| + 1, t.jobs[u].userId, t.jobs[u].jobUuid, Title(t.jobs[u].prompt),
                                          Or(t.jobs[u].generatedCode, ""), videoUrl, now)
    ensures r.jobs == t.jobs[u := t.jobs[u].(status := Completed, completedAt := Some(now), videoId := Some(|t.videos| + 1))]
    ensures r.nextJobId == t.nextJobId
  {
    var job := t.jobs[u];
    var video := Video(|t.videos| + 1, job.userId, job.jobUuid, Title(job.prompt), Or(job.generatedCode, ""), videoUrl, now);
    Tables(t.jobs[u := job.(status := Completed, completedAt := Some(now), videoId := Some(video.id))],
           t.videos + [video], t.nextJobId)
  }

  /**
    The failure path on one job row: `retryLeft` becomes `(retryLeft || 0) - 1`; when that is
    still positive the job is regenerated with the OpenAI backend, no options and a prompt
    carrying the old code and the error, otherwise it becomes FAILED with the reported error.
    The second component says whether it was regenerated.
  */
  function FailAttempt(job: Job, report: Report, env: Env): (r: (Job, bool))
    ensures r.0.retryLeft == Some(RetryBase(job.retryLeft) - 1)
    ensures r.1 <==> RetryBase(job.retryLeft) - 1 > 0
    ensures r.1 ==> r.0 == ProcessJob(job.(retryLeft := Some(RetryBase(job.retryLeft) - 1)),
                                      RetryPrompt(job.generatedCode, report.errorMessage), NoConfig, Some("openai"), env)
    ensures !r.1 ==> r.0 == job.(retryLeft := Some(RetryBase(job.retryLeft) - 1), status := Failed,
                                 errorMessage := Some(Or(report.errorMessage, "Unknown error")))
    ensures r.0.status == Processing || r.0.status == Failed
    ensures r.0 == job.(status := r.0.status, generatedCode := r.0.generatedCode,
                        errorMessage := r.0.errorMessage, retryLeft := r.0.retryLeft)
  {
    var retriesLeft := RetryBase(job.retryLeft) - 1;
    var counted := job.(retryLeft := Some(retriesLeft));
    if retriesLeft > 0 then
      (ProcessJob(counted, RetryPrompt(job.generatedCode, report.errorMessage), NoConfig, Some("openai"), env), true)
    else
      (counted.(status := Failed, errorMessage := Some(Or(report.errorMessage, "Unknown error"))), false)
  }

  /**
    `handleJobCompletion` on a snapshot: the store afterwards, the answer, and whether the job
    was regenerated. The job's current status is not consulted.
  */
  function Webhook(t: Tables, report: Report, now: int, env: Env): WebhookOutcome
  {
    match report.jobUuid
    case None => WebhookOutcome(t, Refused(WebhookFailed), false)
    case Some(u) =>
      if u !in t.jobs then WebhookOutcome(t, Refused(JobNotFound(u)), false)
      else if Succeeded(report) then WebhookOutcome(Complete(t, u, report.videoUrl.value, now), Success, false)
      else
        var r := FailAttempt(t.jobs[u], report, env);
        WebhookOutcome(Tables(t.jobs[u := r.0], t.videos, t.nextJobId), Success, r.1)
  }

  /**
    What one delivery does, by case: a report without a UUID or for an unknown job changes
    nothing and is refused; otherwise it succeeds, only the reported job changes, no job is
    added or removed, the success path is `Complete` and the failure path is one `FailAttempt`
    that leaves the videos alone.
  */
  lemma WebhookOutcomes(t: Tables, report: Report, now: int, env: Env)
    ensures var o := Webhook(t, report, now, env);
      && (report.jobUuid.None? ==> o == WebhookOutcome(t, Refused(WebhookFailed), false))
      && (report.jobUuid.Some? && report.jobUuid.value !in t.jobs ==>
            o == WebhookOutcome(t, Refused(JobNotFound(report.jobUuid.value)), false))
      && (o.reply == Success <==> report.jobUuid.Some? && report.jobUuid.value in t.jobs)
      && o.tables.jobs.Keys == t.jobs.Keys && o.tables.nextJobId == t.nextJobId
      && (forall u :: u in t.jobs && Some(u) != report.jobUuid ==> o.tables.jobs[u] == t.jobs[u])
      && (o.reply.Success? && Succeeded(report) ==>
            o.tables == Complete(t, report.jobUuid.value, report.videoUrl.value, now) && !o.regenerated)
      && (o.reply.Success? && !Succeeded(report) ==>
            && o.tables.videos == t.videos
            && (o.tables.jobs[report.jobUuid.value], o.regenerated) == FailAttempt(t.jobs[report.jobUuid.value], report, env))
      && (o.regenerated ==> o.reply.Success? && !Succeeded(report))
  {
  }

  /** `handleJobCompletion`: the writes of the success path or of the failure path, then `{ success: true }`. */
  method HandleJobCompletion(db: Database, report: Report, now: int, env: Env) returns (reply: WebhookReply)
    requires db.Valid()
    modifies db
    ensures db.Valid()
    ensures db.Snapshot() == Webhook(old(db.Snapshot()), report, now, env).tables
    ensures reply == Webhook(old(db.Snapshot()), report, now, env).reply
  {
    ghost var t := db.Snapshot();
    WebhookConsistent(t, report, now, env);
    if report.jobUuid.None? {
      return Refused(WebhookFailed);
    }
    var jobUuid := report.jobUuid.value;
    if jobUuid !in db.jobs {
      return Refused(JobNotFound(jobUuid));
    }
    if report.status == Some("completed") && Truthy(report.videoUrl) {
      RecordCompletion(db, jobUuid, report.videoUrl.value, now);
    } else {
      RecordFailure(db, jobUuid, report, env);
    }
    reply := Success;
  }

  /** The success path: the job row becomes COMPLETED, the video is inserted, then linked to the job. */
  method RecordCompletion(db: Database, jobUuid: string, videoUrl: string, now: int)
    requires jobUuid in db.jobs && db.jobs[jobUuid].jobUuid == jobUuid
    modifies db
    ensures db.Snapshot() == Complete(old(db.Snapshot()), jobUuid, videoUrl, now)
  {
    ghost var before := db.jobs;
    var job := db.jobs[jobUuid];
    var done := job.(status := Completed, completedAt := Some(now));
    db.PutJob(done);
    var video := db.InsertVideo(job.userId, job.jobUuid, Title(job.prompt), Or(job.generatedCode, ""), videoUrl, now);
    db.PutJob(done.(videoId := Some(video.id)));
    Overwrite(before, jobUuid, done, done.(videoId := Some(video.id)));
  }

  /** The failure path: the decremented budget is written, then the job is regenerated or FAILED. */
  method RecordFailure(db: Database, jobUuid: string, report: Report, env: Env)
    requires jobUuid in db.jobs && db.jobs[jobUuid].jobUuid == jobUuid
    modifies db
    ensures db.jobs == old(db.jobs)[jobUuid := FailAttempt(old(db.jobs[jobUuid]), report, env).0]
    ensures db.videos == old(db.videos) && db.nextJobId == old(db.nextJobId)
  {
    ghost var before := db.jobs;
    var job := db.jobs[jobUuid];
    var retriesLeft := RetryBase(job.retryLeft) - 1;
    var counted := job.(retryLeft := Some(retriesLeft));
    db.PutJob(counted);
    if retriesLeft > 0 {
      ProcessJobAsync(db, jobUuid, RetryPrompt(job.generatedCode, report.errorMessage), NoConfig, Some("openai"), env);
      Overwrite(before, jobUuid, counted,
                ProcessJob(counted, RetryPrompt(job.generatedCode, report.errorMessage), NoConfig, Some("openai"), env));
    } else {
      var failed := counted.(status := Failed, errorMessage := Some(Or(report.errorMessage, "Unknown error")));
      db.PutJob(failed);
      Overwrite(before, jobUuid, counted, failed);
    }
  }

  // ---------------------------------------------------------------------------
  // Consistency of the writes
  // ---------------------------------------------------------------------------

  /** Replacing a row by one with the same identity, owner and video link, and not COMPLETED, keeps the store consistent. */
  lemma ReplaceJobConsistent(t: Tables, u: string, job: Job)
    requires Consistent(t) && u in t.jobs
    requires job.id == t.jobs[u].id && job.jobUuid == u && job.userId == t.jobs[u].userId
    requires job.videoId == t.jobs[u].videoId && job.status != Completed
    ensures Consistent(Tables(t.jobs[u := job], t.videos, t.nextJobId))
  {
    var t' := Tables(t.jobs[u := job], t.videos, t.nextJobId);
    forall i | 0 <= i < |t'.videos|
      ensures t'.videos[i].jobId in t'.jobs && t'.jobs[t'.videos[i].jobId].userId == t'.videos[i].userId
    {
      assert t.videos[i].jobId in t.jobs;
    }
  }

  /** A processing run keeps the store consistent. */
  lemma ProcessJobConsistent(t: Tables, u: string, prompt: string, config: Config, llm: Option<string>, env: Env)
    requires Consistent(t) && u in t.jobs
    ensures Consistent(Tables(t.jobs[u := ProcessJob(t.jobs[u], prompt, config, llm, env)], t.videos, t.nextJobId))
  {
    ReplaceJobConsistent(t, u, ProcessJob(t.jobs[u], prompt, config, llm, env));
  }

  /** The success path keeps the store consistent: the new video belongs to the job and the job links to it. */
  lemma CompleteConsistent(t: Tables, u: string, videoUrl: string, now: int)
    requires Consistent(t) && u in t.jobs
    ensures Consistent(Complete(t, u, videoUrl, now))
  {
    var t' := Complete(t, u, videoUrl, now);
    forall i | 0 <= i < |t'.videos|
      ensures t'.videos[i].jobId in t'.jobs && t'.jobs[t'.videos[i].jobId].userId == t'.videos[i].userId
    {
      if i < |t.videos| {
        assert t'.videos[i] == t.videos[i];
        assert t.videos[i].jobId in t.jobs;
      }
    }
    forall v | v in t'.jobs && t'.jobs[v].videoId.Some?
      ensures HasVideo(t', t'.jobs[v].videoId.value) && VideoById(t', t'.jobs[v].videoId.value).jobId == v
    {
      if v != u {
        var id := t.jobs[v].videoId.value;
        assert t'.videos[id - 1] == t.videos[id - 1];
      }
    }
  }

  /** Every webhook delivery keeps the store consistent. */
  lemma WebhookConsistent(t: Tables, report: Report, now: int, env: Env)
    requires Consistent(t)
    ensures Consistent(Webhook(t, report, now, env).tables)
  {
    if report.jobUuid.Some? && report.jobUuid.value in t.jobs {
      var u := report.jobUuid.value;
      if Succeeded(report) {
        CompleteConsistent(t, u, report.videoUrl.value, now);
      } else {
        ReplaceJobConsistent(t, u, FailAttempt(t.jobs[u], report, env).0);
      }
    }
  }

  // ---------------------------------------------------------------------------
  // getJobStatus
  // ---------------------------------------------------------------------------

  const UuidRequired := ErrorReply(400, "Job UUID is required", None)
  const JobMissing := ErrorReply(404, "Job not found", Some("Job does not exist or does not belong to this user"))

  /** The video part of a status answer: the linked video's id and code, as far as the relation finds it. */
  datatype VideoFields = VideoFields(videoId: Option<int>, codeText: Option<string>)

  /** The status answer. */
  datatype JobView = JobView(
    status: Status,
    jobUuid: string,
    createdAt: int,
    completedAt: Option<int>,
    errorMessage: Option<string>,
    progress: int,
    video: Option<VideoFields>)

  /** The progress table. */
  function Progress(s: Status): (p: int)
    ensures 0 <= p <= 100
    ensures p == 100 <==> s == Completed
    ensures p == 0 <==> s == Failed
  {
    match s
    case Pending => 10
    case Processing => 50
    case Completed => 100
    case Failed => 0
  }

  /** `prisma.job.findFirst({ where: { jobUuid, userId } })`. */
  function FindOwnedJob(t: Tables, jobUuid: string, userId: int): (r: Option<Job>)
    ensures r.Some? <==> jobUuid in t.jobs && t.jobs[jobUuid].userId == userId
    ensures r.Some? ==> r.value == t.jobs[jobUuid]
  {
    if jobUuid in t.jobs && t.jobs[jobUuid].userId == userId then Some(t.jobs[jobUuid]) else None
  }

  /** `job.videoId` is truthy: present and not zero. */
  predicate LinksVideo(job: Job) {
    job.videoId.Some? && job.videoId.value != 0
  }

  /** `job.video?.id` and `job.video?.associatedCode`. */
  function LinkedVideo(t: Tables, job: Job): VideoFields
    requires job.videoId.Some?
  {
    var id := job.videoId.value;
    if HasVideo(t, id) then VideoFields(Some(VideoById(t, id).id), Some(VideoById(t, id).associatedCode))
    else VideoFields(None, None)
  }

  /**
    `getJobStatus`: the caller's own job, by UUID, with its progress and, when it links a video,
    that video's id and code. A job of another user is answered exactly as a missing one.
  */
  function GetJobStatus(t: Tables, user: Option<UserTable.User>, jobUuid: Option<string>): (r: Result<JobView, ErrorReply>)
    ensures user.None? ==> r == Err(NotAuthenticated)
    ensures user.Some? && !Truthy(jobUuid) ==> r == Err(UuidRequired)
    ensures user.Some? && Truthy(jobUuid) && FindOwnedJob(t, jobUuid.value, user.value.id).None? ==> r == Err(JobMissing)
    ensures r.Ok? <==> user.Some? && Truthy(jobUuid) && FindOwnedJob(t, jobUuid.value, user.value.id).Some?
    ensures r.Ok? ==>
      var job := t.jobs[jobUuid.value];
      && r.value.status == job.status && r.value.jobUuid == job.jobUuid && r.value.createdAt == job.createdAt
      && r.value.completedAt == job.completedAt && r.value.errorMessage == job.errorMessage
      && r.value.progress == Progress(job.status)
      && (r.value.video.Some? <==> LinksVideo(job))
      && (r.value.video.Some? ==> r.value.video.value == LinkedVideo(t, job))
  {
    if user.None? then Err(NotAuthenticated)
    else if !Truthy(jobUuid) then Err(UuidRequired)
    else
      match FindOwnedJob(t, jobUuid.value, user.value.id)
      case None => Err(JobMissing)
      case Some(job) =>
        Ok(JobView(job.status, job.jobUuid, job.createdAt, job.completedAt, job.errorMessage, Progress(job.status),
                   if LinksVideo(job) then Some(LinkedVideo(t, job)) else None))
  }

  // ---------------------------------------------------------------------------
  // getVideoUrl
  // ---------------------------------------------------------------------------

  const VideoIdRequired := ErrorReply(400, "Video ID is required", None)
  const VideoMissing := ErrorReply(404, "Video not found", Some("Video does not exist or does not belong to this user"))
  const DownloadFailed := ErrorReply(500, "Internal server error", Some("Failed to generate download URL"))

  /** The download answer: the signed link, its lifetime, the video's id and title. */
  datatype VideoLink = VideoLink(presignedUrl: string, expiresIn: int, videoId: int, title: string)

  /** `prisma.video.findFirst({ where: { id, userId } })`. */
  function FindOwnedVideo(t: Tables, id: int, userId: int): (r: Option<Video>)
    ensures r.Some? <==> HasVideo(t, id) && VideoById(t, id).userId == userId
    ensures r.Some? ==> r.value == VideoById(t, id)
  {
    if HasVideo(t, id) && VideoById(t, id).userId == userId then Some(VideoById(t, id)) else None
  }

  /**
    `getVideoUrl`: the caller's own video, by id, with a link signed for an hour. Another user's
    video is answered exactly as a missing one; a signing failure is a 500.
  */
  function GetVideoUrl(t: Tables, user: Option<UserTable.User>, videoId: Option<int>, s3: S3Env): (r: Result<VideoLink, ErrorReply>)
    ensures user.None? ==> r == Err(NotAuthenticated)
    ensures user.Some? && videoId.None? ==> r == Err(VideoIdRequired)
    ensures user.Some? && videoId.Some? && FindOwnedVideo(t, videoId.value, user.value.id).None? ==> r == Err(VideoMissing)
    ensures r.Ok? ==>
      && user.Some? && videoId.Some? && FindOwnedVideo(t, videoId.value, user.value.id).Some?
      && var video := VideoById(t, videoId.value);
      && r.value.videoId == video.id && r.value.title == video.title && r.value.expiresIn == 3600
      && GeneratePresignedVideoUrl(s3, video.videoUrl, None) == Ok(r.value.presignedUrl)
    ensures r.Ok? <==>
      && user.Some? && videoId.Some? && FindOwnedVideo(t, videoId.value, user.value.id).Some?
      && GeneratePresignedVideoUrl(s3, VideoById(t, videoId.value).videoUrl, None).Ok?
    ensures (&& user.Some? && videoId.Some? && FindOwnedVideo(t, videoId.value, user.value.id).Some?
             && GeneratePresignedVideoUrl(s3, VideoById(t, videoId.value).videoUrl, None).Err?) ==>
      r == Err(DownloadFailed)
    ensures r.Err? && r.error.status == 500 ==> r.error == DownloadFailed
  {
    if user.None? then Err(NotAuthenticated)
    else if videoId.None? then Err(VideoIdRequired)
    else
      match FindOwnedVideo(t, videoId.value, user.value.id)
      case None => Err(VideoMissing)
      case Some(video) =>
        match GeneratePresignedVideoUrl(s3, video.videoUrl, None)
        case Err(_) => Err(DownloadFailed)
        case Ok(url) => Ok(VideoLink(url, 3600, video.id, video.title))
  }

  // ---------------------------------------------------------------------------
  // getUserVideos
  // ---------------------------------------------------------------------------

  /** One listed video: the selected columns. */
  datatype VideoSummary = VideoSummary(id: int, jobId: string, title: string, associatedCode: string, createdAt: int)

  datatype Pagination = Pagination(total: int, limit: int, offset: int, hasMore: bool)

  datatype VideoPage = VideoPage(videos: seq<VideoSummary>, pagination: Pagination)

  function Summary(v: Video): VideoSummary {
    VideoSummary(v.id, v.jobId, v.title, v.associatedCode, v.createdAt)
  }

  /** `select`: the listed columns of each video, in order. */
  function Summaries(vs: seq<Video>): (r: seq<VideoSummary>)
    ensures |r| == |vs|
    ensures forall i :: 0 <= i < |vs| ==> r[i] == Summary(vs[i])
  {
    seq(|vs|, i requires 0 <= i < |vs| => Summary(vs[i]))
  }

  /** The videos of one user, in store order. */
  function Owned(videos: seq<Video>, userId: int): (r: seq<Video>)
    ensures forall i :: 0 <= i < |r| ==> r[i].userId == userId && r[i] in videos
    ensures forall v :: v in videos && v.userId == userId ==> v in r
    ensures forall v :: multiset(r)[v] == if v.userId == userId then multiset(videos)[v] else 0
    ensures |r| <= |videos|
  {
    if videos == [] then []
    else
      var rest := Owned(videos[1..], userId);
      assert videos == [videos[0]] + videos[1..];
      assert multiset(videos) == multiset{videos[0]} + multiset(videos[1..]);
      if videos[0].userId == userId then [videos[0]] + rest else rest
  }

  /** Filtering by owner distributes over concatenation, so the owner's videos keep their store order. */
  lemma {:induction false} OwnedAppend(a: seq<Video>, b: seq<Video>, userId: int)
    ensures Owned(a + b, userId) == Owned(a, userId) + Owned(b, userId)
    decreases |a|
  {
    if a == [] {
      assert a + b == b;
    } else {
      assert (a + b)[1..] == a[1..] + b;
      assert (a + b)[0] == a[0];
      OwnedAppend(a[1..], b, userId);
    }
  }

  /** Newest first: creation times never increase along the sequence. */
  predicate NewestFirst(vs: seq<Video>) {
    forall i, j :: 0 <= i < j < |vs| ==> vs[i].createdAt >= vs[j].createdAt
  }

  /** Places one video among videos already newest first. */
  function InsertNewest(v: Video, vs: seq<Video>): (r: seq<Video>)
    requires NewestFirst(vs)
    ensures NewestFirst(r)
    ensures multiset(r) == multiset(vs) + multiset{v}
    ensures |r| == |vs| + 1
    ensures forall x :: x in r ==> x in vs || x == v
    decreases |vs|
  {
    if vs == [] then [v]
    else if v.createdAt >= vs[0].createdAt then
      ConsNewest(v, vs);
      [v] + vs
    else
      assert vs == [vs[0]] + vs[1..];
      assert NewestFirst(vs[1..]) by {
        forall i, j | 0 <= i < j < |vs[1..]| ensures vs[1..][i].createdAt >= vs[1..][j].createdAt {
          assert vs[1..][i] == vs[i + 1] && vs[1..][j] == vs[j + 1];
        }
      }
      var rest := InsertNewest(v, vs[1..]);
      ConsNewest(vs[0], rest);
      [vs[0]] + rest
  }

  /** A video no older than every video of a newest-first sequence can head it. */
  lemma ConsNewest(x: Video, rest: seq<Video>)
    requires NewestFirst(rest)
    requires forall y :: y in rest ==> x.createdAt >= y.createdAt
    ensures NewestFirst([x] + rest)
  {
    var r := [x] + rest;
    forall i, j | 0 <= i < j < |r| ensures r[i].createdAt >= r[j].createdAt {
      assert r[j] == rest[j - 1];
      if i > 0 {
        assert r[i] == rest[i - 1];
      }
    }
  }

  /** `orderBy: { createdAt: 'desc' }`: the same videos, newest first. */
  function SortNewest(vs: seq<Video>): (r: seq<Video>)
    ensures NewestFirst(r)
    ensures multiset(r) == multiset(vs)
    ensures |r| == |vs|
    ensures forall x :: x in r ==> x in vs
    decreases |vs|
  {
    if vs == [] then []
    else
      assert vs == [vs[0]] + vs[1..];
      InsertNewest(vs[0], SortNewest(vs[1..]))
  }

  /** `skip: offset, take: limit`. */
  function Page<T>(items: seq<T>, offset: nat, limit: nat): (r: seq<T>)
    ensures |r| <= limit
    ensures |r| == if offset >= |items| then 0 else if offset + limit <= |items| then limit else |items| - offset
    ensures offset >= |items| ==> r == []
    ensures offset < |items| ==> r == items[offset..if offset + limit <= |items| then offset + limit else |items|]
    ensures forall x :: x in r ==> x in items
  {
    if offset >= |items| then []
    else if offset + limit <= |items| then items[offset..offset + limit]
    else items[offset..]
  }

  /**
    `getUserVideos`: a page of the caller's videos, newest first, `limit` of them (10 by default)
    after skipping `offset` (0 by default). `total` counts all the caller's videos, and `hasMore`
    holds exactly when some of them lie beyond this page.
  */
  function GetUserVideos(t: Tables, user: Option<UserTable.User>, limit: Option<nat>, offset: Option<nat>): (r: Result<VideoPage, ErrorReply>)
    ensures user.None? ==> r == Err(NotAuthenticated)
    ensures r.Ok? <==> user.Some?
    ensures r.Ok? ==>
      var lim := if limit.Some? then limit.value else 10;
      var off := if offset.Some? then offset.value else 0;
      var all := SortNewest(Owned(t.videos, user.value.id));
      && r.value.pagination == Pagination(|Owned(t.videos, user.value.id)|, lim, off, off + lim < |all|)
      && |r.value.videos| <= lim
      && (r.value.pagination.hasMore <==> off + |r.value.videos| < r.value.pagination.total)
      && r.value.videos == Summaries(Page(all, off, lim))
  {
    if user.None? then Err(NotAuthenticated)
    else
      var lim := if limit.Some? then limit.value else 10;
      var off := if offset.Some? then offset.value else 0;
      var owned := Owned(t.videos, user.value.id);
      var all := SortNewest(owned);
      Ok(VideoPage(Summaries(Page(all, off, lim)), Pagination(|owned|, lim, off, off + lim < |owned|)))
  }
}
