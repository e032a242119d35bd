/**
  Properties of the job lifecycle that span several requests: how many times a job can be
  regenerated, what repeated and late webhook deliveries do, owner scoping of the reads, and
  three end-to-end runs of a job from submission to its last report.
*/
module JobProperties {
  import opened Wrappers
  import opened Text
  import opened LLMService
  import opened JobStore
  import opened JobController
  import UserTable

  // ---------------------------------------------------------------------------
  // The retry budget
  // ---------------------------------------------------------------------------

  /** One webhook delivery: the report, the time it arrives, and what a regeneration it starts would meet. */
  datatype Delivery = Delivery(report: Report, now: int, env: Env)

  /** The store after a sequence of deliveries. */
  function Deliver(t: Tables, ds: seq<Delivery>): Tables
    decreases |ds|
  {
    if ds == [] then t
    else Deliver(Webhook(t, ds[0].report, ds[0].now, ds[0].env).tables, ds[1..])
  }

  /** How many of those deliveries sent job `u` back to generation. */
  function Regenerations(t: Tables, ds: seq<Delivery>, u: string): nat
    decreases |ds|
  {
    if ds == [] then 0
    else
      var o := Webhook(t, ds[0].report, ds[0].now, ds[0].env);
      (if ds[0].report.jobUuid == Some(u) && o.regenerated then 1 else 0) + Regenerations(o.tables, ds[1..], u)
  }

  /** The regenerations a job has left: one less than `retryLeft || 0`, and never negative. */
  function Budget(job: Job): nat {
    if RetryBase(job.retryLeft) - 1 > 0 then RetryBase(job.retryLeft) - 1 else 0
  }

  /** One delivery spends at most one unit of a job's budget, and only when it regenerates that job. */
  lemma WebhookSpendsBudget(t: Tables, d: Delivery, u: string)
    requires u in t.jobs
    ensures var o := Webhook(t, d.report, d.now, d.env);
      && u in o.tables.jobs
      && (if d.report.jobUuid == Some(u) && o.regenerated then 1 else 0) + Budget(o.tables.jobs[u]) <= Budget(t.jobs[u])
  {
    var o := Webhook(t, d.report, d.now, d.env);
    if d.report.jobUuid == Some(u) && o.reply.Success? && !Succeeded(d.report) {
      assert o.tables.jobs[u].retryLeft == Some(RetryBase(t.jobs[u].retryLeft) - 1);
    } else if d.report.jobUuid == Some(u) && o.reply.Success? {
      assert o.tables.jobs[u].retryLeft == t.jobs[u].retryLeft;
    }
  }

  /**
    Whatever reports arrive, in whatever order and however often, a job is regenerated at most
    `Budget` times: each regeneration uses up one unit, and nothing ever restores one.
  */
  lemma {:induction false} RegenerationBound(t: Tables, ds: seq<Delivery>, u: string)
    requires u in t.jobs
    ensures u in Deliver(t, ds).jobs
    ensures Regenerations(t, ds, u) + Budget(Deliver(t, ds).jobs[u]) <= Budget(t.jobs[u])
    decreases |ds|
  {
    if ds != [] {
      var o := Webhook(t, ds[0].report, ds[0].now, ds[0].env);
      WebhookSpendsBudget(t, ds[0], u);
      RegenerationBound(o.tables, ds[1..], u);
    }
  }

  /**
    With an initial `retryLeft` of `n`, a job is regenerated at most `n - 1` times, so it is
    generated at most `n` times in all (and once when `n <= 1`).
  */
  lemma RetriesAtMostBudgetLessOne(t: Tables, ds: seq<Delivery>, u: string, n: int)
    requires u in t.jobs && t.jobs[u].retryLeft == Some(n)
    ensures Regenerations(t, ds, u) <= if n > 1 then n - 1 else 0
  {
    RegenerationBound(t, ds, u);
  }

  // ---------------------------------------------------------------------------
  // Repeated and late reports
  // ---------------------------------------------------------------------------

  /** The videos produced by job `u`. */
  function VideosOf(videos: seq<Video>, u: string): (r: seq<Video>)
    ensures forall i :: 0 <= i < |r| ==> r[i].jobId == u
  {
    if videos == [] then []
    else (if videos[0].jobId == u then [videos[0]] else []) + VideosOf(videos[1..], u)
  }

  /** Appending a video adds it to the videos of its job and to no other. */
  lemma {:induction false} VideosOfAppend(videos: seq<Video>, v: Video, u: string)
    ensures VideosOf(videos + [v], u) == VideosOf(videos, u) + (if v.jobId == u then [v] else [])
    decreases |videos|
  {
    if videos == [] {
      assert [v][1..] == [];
    } else {
      assert (videos + [v])[1..] == videos[1..] + [v];
      VideosOfAppend(videos[1..], v, u);
    }
  }

  /** A job that is not in the store has no videos in a consistent store. */
  lemma {:induction false} NoVideosOfUnknownJob(videos: seq<Video>, jobs: map<string, Job>, u: string)
    requires u !in jobs
    requires forall i :: 0 <= i < |videos| ==> videos[i].jobId in jobs
    ensures VideosOf(videos, u) == []
    decreases |videos|
  {
    if videos != [] {
      assert videos[0].jobId in jobs;
      NoVideosOfUnknownJob(videos[1..], jobs, u);
    }
  }

  /**
    A success report is applied again when it is delivered again: the second delivery appends a
    second video for the same job (the job's status is never consulted).
  */
  lemma RepeatedCompletionAddsSecondVideo(t: Tables, report: Report, now1: int, now2: int, env1: Env, env2: Env)
    requires report.jobUuid.Some? && report.jobUuid.value in t.jobs && Succeeded(report)
    requires t.jobs[report.jobUuid.value].jobUuid == report.jobUuid.value
    ensures var u := report.jobUuid.value;
      var t1 := Webhook(t, report, now1, env1).tables;
      var t2 := Webhook(t1, report, now2, env2).tables;
      && t2.jobs[u].status == Completed
      && |VideosOf(t2.videos, u)| == |VideosOf(t.videos, u)| + 2
  {
    var u := report.jobUuid.value;
    var t1 := Webhook(t, report, now1, env1).tables;
    var t2 := Webhook(t1, report, now2, env2).tables;
    assert t1.videos == t.videos + [t1.videos[|t.videos|]];
    VideosOfAppend(t.videos, t1.videos[|t.videos|], u);
    assert t2.videos == t1.videos + [t2.videos[|t1.videos|]];
    VideosOfAppend(t1.videos, t2.videos[|t1.videos|], u);
  }

  /**
    A failure report that arrives after the job has COMPLETED is applied too: the job leaves
    COMPLETED while its video stays linked to it.
  */
  lemma FailureAfterCompletionReopensJob(t: Tables, report: Report, now: int, env: Env)
    requires Consistent(t)
    requires report.jobUuid.Some? && report.jobUuid.value in t.jobs && !Succeeded(report)
    requires t.jobs[report.jobUuid.value].status == Completed
    ensures var u := report.jobUuid.value;
      var t1 := Webhook(t, report, now, env).tables;
      && t1.jobs[u].status != Completed
      && t1.jobs[u].videoId == t.jobs[u].videoId
      && HasVideo(t1, t1.jobs[u].videoId.value) && VideoById(t1, t1.jobs[u].videoId.value).jobId == u
  {
    WebhookConsistent(t, report, now, env);
  }

  /** A second failure report decrements the retry counter again. */
  lemma RepeatedFailureDecrementsAgain(t: Tables, report: Report, now1: int, now2: int, env1: Env, env2: Env)
    requires report.jobUuid.Some? && report.jobUuid.value in t.jobs && !Succeeded(report)
    ensures var u := report.jobUuid.value;
      var t2 := Webhook(Webhook(t, report, now1, env1).tables, report, now2, env2).tables;
      t2.jobs[u].retryLeft == Some(RetryBase(t.jobs[u].retryLeft) - 2)
  {
    var u := report.jobUuid.value;
    var t1 := Webhook(t, report, now1, env1).tables;
    assert t1.jobs[u].retryLeft == Some(RetryBase(t.jobs[u].retryLeft) - 1);
  }

  // ---------------------------------------------------------------------------
  // Owner scoping of the reads
  // ---------------------------------------------------------------------------

  /** Asking for another user's job gets the same answer as asking for a job that does not exist. */
  lemma StatusHidesOtherUsersJobs(t: Tables, user: UserTable.User, u: string)
    requires u != "" && u in t.jobs && t.jobs[u].userId != user.id
    ensures GetJobStatus(t, Some(user), Some(u)) == Err(JobMissing)
    ensures GetJobStatus(t, Some(user), Some(u)) == GetJobStatus(t.(jobs := t.jobs - {u}), Some(user), Some(u))
  {
  }

  /** Asking for another user's video gets the same answer as asking for a video that does not exist. */
  lemma VideoUrlHidesOtherUsersVideos(t: Tables, user: UserTable.User, id: int, s3: S3Service.S3Env)
    requires HasVideo(t, id) && VideoById(t, id).userId != user.id
    ensures GetVideoUrl(t, Some(user), Some(id), s3) == Err(VideoMissing)
    ensures GetVideoUrl(t, Some(user), Some(id), s3) == GetVideoUrl(t.(videos := []), Some(user), Some(id), s3)
  {
  }

  /** Every video in a listing is one of the caller's own. */
  lemma ListingShowsOnlyOwnVideos(t: Tables, user: UserTable.User, limit: Option<nat>, offset: Option<nat>)
    requires Consistent(t)
    ensures var r := GetUserVideos(t, Some(user), limit, offset);
      r.Ok? && forall i :: 0 <= i < |r.value.videos| ==>
        HasVideo(t, r.value.videos[i].id) && VideoById(t, r.value.videos[i].id).userId == user.id
  {
    var r := GetUserVideos(t, Some(user), limit, offset);
    var lim := if limit.Some? then limit.value else 10;
    var off := if offset.Some? then offset.value else 0;
    var page := Page(SortNewest(Owned(t.videos, user.id)), off, lim);
    forall i | 0 <= i < |r.value.videos|
      ensures HasVideo(t, r.value.videos[i].id) && VideoById(t, r.value.videos[i].id).userId == user.id
    {
      assert page[i] in page;
      OwnedVideoIsStored(t, user.id, page[i]);
    }
  }

  /** A video of the owned list is stored under its own id and belongs to that user. */
  lemma OwnedVideoIsStored(t: Tables, userId: int, v: Video)
    requires Consistent(t) && v in Owned(t.videos, userId)
    ensures HasVideo(t, v.id) && VideoById(t, v.id) == v && v.userId == userId
  {
    var owned := Owned(t.videos, userId);
    var j :| 0 <= j < |owned| && owned[j] == v;
    var k :| 0 <= k < |t.videos| && t.videos[k] == v;
    assert v.id == k + 1;
  }

  /** The status of one's own COMPLETED job reports progress 100 and the video it produced. */
  lemma CompletedStatusShowsVideo(t: Tables, user: UserTable.User, u: string)
    requires Consistent(t)
    requires u != "" && u in t.jobs && t.jobs[u].userId == user.id && t.jobs[u].status == Completed
    ensures var r := GetJobStatus(t, Some(user), Some(u));
      var id := t.jobs[u].videoId.value;
      && r.Ok? && r.value.progress == 100
      && r.value.video == Some(VideoFields(Some(id), Some(VideoById(t, id).associatedCode)))
      && VideoById(t, id).jobId == u
  {
    var id := t.jobs[u].videoId.value;
    assert HasVideo(t, id);
    assert VideoById(t, id).id == id;
  }

  // ---------------------------------------------------------------------------
  // End-to-end runs
  // ---------------------------------------------------------------------------

  /** The render service accepts and queues every dispatched job. */
  predicate Queues(env: Env) {
    env.ack.Acked? && env.ack.status == Some("queued")
  }

  /** Both backends return code for every prompt, and the render service queues every job. */
  ghost predicate Healthy(env: Env) {
    Queues(env) && forall b, p :: ReplyCode(env.llm(b, p)).Some?
  }

  /**
    A run whose backend is supported and returns code for the built prompt, and whose render
    service queues the job, leaves the job PROCESSING.
  */
  lemma QueuedRun(job: Job, prompt: string, config: Config, llm: Option<string>, env: Env)
    requires Queues(env) && SelectBackend(Or(llm, "gemini")).Some?
    requires ReplyCode(env.llm(SelectBackend(Or(llm, "gemini")).value, UserPrompt(prompt, config))).Some?
    ensures ProcessJob(job, prompt, config, llm, env).status == Processing
    ensures ProcessJob(job, prompt, config, llm, env).retryLeft == job.retryLeft
  {
    var req := GenerationRequest(prompt, config, llm);
    assert Choice(req.llm) == Or(llm, "gemini");
    ProcessJobOutcome(job, prompt, config, llm, env);
  }

  /** The prompt of the first run. */
  const Circle := "draw a circle"

  lemma CircleIsValid()
    ensures ValidPrompt(Some(Circle))
  {
    assert Circle[0] == 'd' && !IsSpace(Circle[0]);
  }

  /** The request that submits the circle prompt with the default backend. */
  function CircleRequest(config: Config): (b: JobRequest)
    ensures ValidPrompt(b.prompt) && b.prompt.value == Circle && b.llm.None?
  {
    CircleIsValid();
    JobRequest(Some(Circle), config, None)
  }

  /** The store right after the circle prompt has been submitted and its first run is over. */
  lemma CircleSubmitted(t: Tables, retryDefault: Option<int>, user: UserTable.User, u: string, config: Config,
                        now: int, env: Env)
    requires u !in t.jobs
    ensures var job := NewJob(t.nextJobId, u, user.id, Trim(Circle), now, retryDefault);
      Submit(t, retryDefault, Some(user), CircleRequest(config), u, now, env).1 ==
        Added(t, u, ProcessJob(job, Circle, config, None, env))
  {
  }

  /** Every submission keeps the store consistent. */
  lemma SubmitConsistent(t: Tables, retryDefault: Option<int>, user: Option<UserTable.User>, body: JobRequest,
                         u: string, now: int, env: Env)
    requires Consistent(t) && u !in t.jobs
    ensures Consistent(Submit(t, retryDefault, user, body, u, now, env).1)
  {
    if user.Some? && ValidPrompt(body.prompt) {
      var job := NewJob(t.nextJobId, u, user.value.id, Trim(body.prompt.value), now, retryDefault);
      SubmitAccepted(t, retryDefault, user.value, body, u, now, env);
      AddedConsistent(t, ProcessJob(job, body.prompt.value, body.config, body.llm, env));
    }
  }

  /**
    When Gemini returns code for the circle prompt and the render service queues the job, the
    submitted job is stored under its UUID, PROCESSING, with its full budget.
  */
  lemma QueuedSubmission(t: Tables, retryDefault: Option<int>, user: UserTable.User, u: string, config: Config,
                         now: int, env: Env)
    requires u !in t.jobs
    requires Queues(env) && ReplyCode(env.llm(Gemini, UserPrompt(Circle, config))).Some?
    ensures var t0 := Submit(t, retryDefault, Some(user), CircleRequest(config), u, now, env).1;
      && u in t0.jobs && t0.videos == t.videos && t0.jobs[u].jobUuid == u
      && t0.jobs[u].status == Processing && t0.jobs[u].retryLeft == retryDefault
  {
    var job := NewJob(t.nextJobId, u, user.id, Trim(Circle), now, retryDefault);
    CircleSubmitted(t, retryDefault, user, u, config, now, env);
    assert SelectBackend(Or(None, "gemini")) == Some(Gemini);
    QueuedRun(job, Circle, config, None, env);
  }

  /** A failure report for job `u`. */
  predicate FailureFor(report: Report, u: string) {
    report.jobUuid == Some(u) && !Succeeded(report)
  }

  /**
    A failure report for a job with at least two attempts left regenerates it; when OpenAI returns
    code for the retry prompt and the render service queues the job, it is PROCESSING again.
  */
  lemma QueuedRetry(t: Tables, report: Report, u: string, now: int, env: Env)
    requires u in t.jobs && FailureFor(report, u) && Queues(env)
    requires ReplyCode(env.llm(OpenAI, UserPrompt(RetryPrompt(t.jobs[u].generatedCode, report.errorMessage), NoConfig))).Some?
    requires RetryBase(t.jobs[u].retryLeft) >= 2
    ensures var o := Webhook(t, report, now, env);
      && u in o.tables.jobs && o.regenerated && o.tables.videos == t.videos
      && o.tables.jobs[u].jobUuid == t.jobs[u].jobUuid && o.tables.jobs[u].status == Processing
      && o.tables.jobs[u].retryLeft == Some(RetryBase(t.jobs[u].retryLeft) - 1)
  {
    var job := t.jobs[u];
    var counted := job.(retryLeft := Some(RetryBase(job.retryLeft) - 1));
    FailurePath(t, report, u, now, env);
    assert SelectBackend(Or(Some("openai"), "gemini")) == Some(OpenAI);
    QueuedRun(counted, RetryPrompt(job.generatedCode, report.errorMessage), NoConfig, Some("openai"), env);
  }

  /** A failure report for a stored job leaves the videos alone and writes that job's row as one failed attempt. */
  lemma FailurePath(t: Tables, report: Report, u: string, now: int, env: Env)
    requires u in t.jobs && FailureFor(report, u)
    ensures var o := Webhook(t, report, now, env);
      && u in o.tables.jobs && o.tables.videos == t.videos
      && (o.tables.jobs[u], o.regenerated) == FailAttempt(t.jobs[u], report, env)
  {
  }

  /** A failure report for a job with at most one attempt left fails it for good. */
  lemma FinalFailure(t: Tables, report: Report, u: string, now: int, env: Env)
    requires u in t.jobs && FailureFor(report, u) && RetryBase(t.jobs[u].retryLeft) <= 1
    ensures var o := Webhook(t, report, now, env);
      && u in o.tables.jobs && !o.regenerated && o.tables.videos == t.videos
      && o.tables.jobs[u].status == Failed
      && o.tables.jobs[u].retryLeft == Some(RetryBase(t.jobs[u].retryLeft) - 1)
  {
  }

  /** A success report for a job of a consistent store gives it exactly one more video. */
  lemma SuccessAddsOneVideo(t: Tables, report: Report, u: string, now: int, env: Env)
    requires u in t.jobs && t.jobs[u].jobUuid == u && report.jobUuid == Some(u) && Succeeded(report)
    ensures var t1 := Webhook(t, report, now, env).tables;
      && u in t1.jobs && t1.jobs[u].status == Completed
      && t1.jobs[u].retryLeft == t.jobs[u].retryLeft
      && |VideosOf(t1.videos, u)| == |VideosOf(t.videos, u)| + 1
  {
    var t1 := Webhook(t, report, now, env).tables;
    CompleteJobUuid(t, u, report.videoUrl.value, now);
    assert t1.videos == t.videos + [t1.videos[|t.videos|]];
    VideosOfAppend(t.videos, t1.videos[|t.videos|], u);
  }

  /** The video the success path appends names the completed job. */
  lemma CompleteJobUuid(t: Tables, u: string, videoUrl: string, now: int)
    requires u in t.jobs
    ensures Complete(t, u, videoUrl, now).videos[|t.videos|].jobId == t.jobs[u].jobUuid
  {
  }

  /**
    A job with a budget of 3 meets two failure reports and then a success: it is regenerated
    twice, ends COMPLETED with `retryLeft` 1, and exactly one video belongs to it.
  */
  lemma RetryThenSuccess(t: Tables, user: UserTable.User, u: string, config: Config,
                         now0: int, now1: int, now2: int, now3: int, env0: Env, env1: Env, env2: Env, env3: Env,
                         fail1: Report, fail2: Report, done: Report)
    requires Consistent(t) && u !in t.jobs
    requires Healthy(env0) && Healthy(env1) && Healthy(env2)
    requires FailureFor(fail1, u) && FailureFor(fail2, u)
    requires done.jobUuid == Some(u) && Succeeded(done)
    ensures var t0 := Submit(t, Some(3), Some(user), CircleRequest(config), u, now0, env0).1;
      var o1 := Webhook(t0, fail1, now1, env1);
      var o2 := Webhook(o1.tables, fail2, now2, env2);
      var t3 := Webhook(o2.tables, done, now3, env3).tables;
      && o1.regenerated && o2.regenerated
      && t3.jobs[u].status == Completed
      && t3.jobs[u].retryLeft == Some(1)
      && |VideosOf(t3.videos, u)| == 1
  {
    var t0 := Submit(t, Some(3), Some(user), CircleRequest(config), u, now0, env0).1;
    assert ReplyCode(env0.llm(Gemini, UserPrompt(Circle, config))).Some?;
    QueuedSubmission(t, Some(3), user, u, config, now0, env0);
    var o1 := Webhook(t0, fail1, now1, env1);
    assert ReplyCode(env1.llm(OpenAI, UserPrompt(RetryPrompt(t0.jobs[u].generatedCode, fail1.errorMessage), NoConfig))).Some?;
    QueuedRetry(t0, fail1, u, now1, env1);
    var o2 := Webhook(o1.tables, fail2, now2, env2);
    assert ReplyCode(env2.llm(OpenAI, UserPrompt(RetryPrompt(o1.tables.jobs[u].generatedCode, fail2.errorMessage), NoConfig))).Some?;
    QueuedRetry(o1.tables, fail2, u, now2, env2);
    SuccessAddsOneVideo(o2.tables, done, u, now3, env3);
    NoVideosOfUnknownJob(t.videos, t.jobs, u);
  }

  /**
    A job whose generation fails is FAILED at once with the wrapped message, and its retry
    counter is untouched.
  */
  lemma GenerationRejectionFailsAtOnce(t: Tables, user: UserTable.User, u: string, config: Config,
                                       retryDefault: Option<int>, now: int, env: Env)
    requires u !in t.jobs
    requires forall p :: ReplyCode(env.llm(Gemini, p)).None?
    ensures var t0 := Submit(t, retryDefault, Some(user), CircleRequest(config), u, now, env).1;
      && t0.jobs[u].status == Failed
      && t0.jobs[u].retryLeft == retryDefault
      && t0.jobs[u].errorMessage == Some("Failed to generate Manim code using GEMINI")
  {
    var job := NewJob(t.nextJobId, u, user.id, Trim(Circle), now, retryDefault);
    CircleSubmitted(t, retryDefault, user, u, config, now, env);
    GeminiRejection(job, Circle, config, env);
  }

  /** A run on the default backend that yields no code fails the job with the GEMINI message. */
  lemma GeminiRejection(job: Job, prompt: string, config: Config, env: Env)
    requires forall p :: ReplyCode(env.llm(Gemini, p)).None?
    ensures var j := ProcessJob(job, prompt, config, None, env);
      && j.status == Failed && j.retryLeft == job.retryLeft
      && j.errorMessage == Some("Failed to generate Manim code using GEMINI")
  {
    var req := GenerationRequest(prompt, config, None);
    assert Choice(req.llm) == "gemini";
    assert SelectBackend("gemini") == Some(Gemini);
    assert Generation(req, env.llm).Err?;
    ProcessJobOutcome(job, prompt, config, None, env);
    assert Or(None, "gemini") == "gemini";
    GeminiMessage();
  }

  lemma GeminiMessage()
    ensures FailureMessage("gemini") == "Failed to generate Manim code using GEMINI"
  {
    assert Upper("gemini") == "GEMINI";
  }

  /**
    A job with a budget of 1 fails for good at its first failure report, with `retryLeft` 0 and
    no regeneration; a second failure report regenerates nothing either, and takes the counter to -1.
  */
  lemma SingleRetryFailsAtFirstReport(t: Tables, user: UserTable.User, u: string, config: Config,
                                      now0: int, now1: int, now2: int, env0: Env, env1: Env, env2: Env,
                                      fail1: Report, fail2: Report)
    requires u !in t.jobs
    requires FailureFor(fail1, u) && FailureFor(fail2, u)
    ensures var t0 := Submit(t, Some(1), Some(user), CircleRequest(config), u, now0, env0).1;
      var o1 := Webhook(t0, fail1, now1, env1);
      var o2 := Webhook(o1.tables, fail2, now2, env2);
      && !o1.regenerated && o1.tables.jobs[u].status == Failed && o1.tables.jobs[u].retryLeft == Some(0)
      && !o2.regenerated && o2.tables.jobs[u].status == Failed && o2.tables.jobs[u].retryLeft == Some(-1)
  {
    var job := NewJob(t.nextJobId, u, user.id, Trim(Circle), now0, Some(1));
    CircleSubmitted(t, Some(1), user, u, config, now0, env0);
    var t0 := Submit(t, Some(1), Some(user), CircleRequest(config), u, now0, env0).1;
    assert t0.jobs[u].retryLeft == Some(1);
    FinalFailure(t0, fail1, u, now1, env1);
    var o1 := Webhook(t0, fail1, now1, env1);
    FinalFailure(o1.tables, fail2, u, now2, env2);
  }
}
