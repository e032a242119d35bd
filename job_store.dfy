/**
  The `job` and `video` tables. Jobs are keyed by their UUID (unique, and one-to-one with the
  internal numeric id); videos are kept in insertion order, the video with id `n` at index
  `n - 1`, since the autoincrement id is never reused. `Tables` is a snapshot of both tables;
  `Database` is the store itself, whose methods write one row at a time.
*/
module JobStore {
  import opened Wrappers

  datatype Status = Pending | Processing | Completed | Failed

  /** A job row. */
  datatype Job = Job(
    id: int,
    jobUuid: string,
    userId: int,
    prompt: string,
    status: Status,
    generatedCode: Option<string>,
    retryLeft: Option<int>,
    errorMessage: Option<string>,
    createdAt: int,
    completedAt: Option<int>,
    videoId: Option<int>)

  /** A video row; `jobId` holds the UUID of the job that produced it. */
  datatype Video = Video(
    id: int,
    userId: int,
    jobId: string,
    title: string,
    associatedCode: string,
    videoUrl: string,
    createdAt: int)

  datatype Tables = Tables(jobs: map<string, Job>, videos: seq<Video>, nextJobId: int)

  /** A video id names a stored video. */
  predicate HasVideo(t: Tables, id: int) {
    1 <= id <= |t.videos|
  }

  /** The video with a given id. */
  function VideoById(t: Tables, id: int): Video
    requires HasVideo(t, id)
  {
    t.videos[id - 1]
  }

  /**
    The store is consistent when every job sits under its own UUID with an id below
    `nextJobId`; video ids are their positions; every video names an existing job of the same
    owner; a job's `videoId` names a video produced by that job; and a COMPLETED job has its
    completion time and video.
  */
  ghost predicate Consistent(t: Tables) {
    && 1 <= t.nextJobId
    && (forall u :: u in t.jobs ==> t.jobs[u].jobUuid == u && 1 <= t.jobs[u].id < t.nextJobId)
    && (forall i :: 0 <= i < |t.videos| ==> t.videos[i].id == i + 1)
    && (forall i :: 0 <= i < |t.videos| ==>
          t.videos[i].jobId in t.jobs && t.jobs[t.videos[i].jobId].userId == t.videos[i].userId)
    && (forall u :: u in t.jobs && t.jobs[u].videoId.Some? ==>
          HasVideo(t, t.jobs[u].videoId.value) && VideoById(t, t.jobs[u].videoId.value).jobId == u)
    && (forall u :: u in t.jobs && t.jobs[u].status == Completed ==>
          t.jobs[u].completedAt.Some? && t.jobs[u].videoId.Some?)
  }

  /**
    The row `prisma.job.create` inserts: the given UUID, owner and prompt, status PENDING, and
    the schema's defaults for the rest (`retryDefault` is the schema's initial retry budget).
  */
  function NewJob(id: int, jobUuid: string, userId: int, prompt: string, now: int, retryDefault: Option<int>): (j: Job)
    ensures j.jobUuid == jobUuid && j.userId == userId && j.prompt == prompt && j.status == Pending
    ensures j.retryLeft == retryDefault && j.generatedCode.None? && j.videoId.None?
    ensures j.id == id && j.createdAt == now && j.errorMessage.None? && j.completedAt.None?
  {
    Job(id, jobUuid, userId, prompt, Pending, None, retryDefault, None, now, None, None)
  }

  /** Inserting a fresh job keeps the store consistent. */
  lemma NewJobConsistent(t: Tables, jobUuid: string, userId: int, prompt: string, now: int, retryDefault: Option<int>)
    requires Consistent(t) && jobUuid !in t.jobs
    ensures var j := NewJob(t.nextJobId, jobUuid, userId, prompt, now, retryDefault);
      Consistent(Tables(t.jobs[jobUuid := j], t.videos, t.nextJobId + 1))
  {
    var j := NewJob(t.nextJobId, jobUuid, userId, prompt, now, retryDefault);
    var t' := Tables(t.jobs[jobUuid := j], t.videos, t.nextJobId + 1);
    forall u | u in t'.jobs && t'.jobs[u].videoId.Some?
      ensures HasVideo(t', t'.jobs[u].videoId.value) && VideoById(t', t'.jobs[u].videoId.value).jobId == u
    {
      assert u != jobUuid && t'.jobs[u] == t.jobs[u];
    }
  }

  /** The job and video tables, written one row at a time. */
  class Database {
    var jobs: map<string, Job>
    var videos: seq<Video>
    var nextJobId: int
    /** The schema's default for `retryLeft` on a new job. */
    const retryDefault: Option<int>

    function Snapshot(): Tables
      reads this
    {
      Tables(jobs, videos, nextJobId)
    }

    ghost predicate Valid()
      reads this
    {
      Consistent(Snapshot())
    }

    constructor (retryDefault: Option<int>)
      ensures Valid() && jobs == map[] && videos == [] && this.retryDefault == retryDefault
    {
      jobs := map[];
      videos := [];
      nextJobId := 1;
      this.retryDefault := retryDefault;
    }

    /** `prisma.job.create`: inserts a new PENDING job. */
    method InsertJob(jobUuid: string, userId: int, prompt: string, now: int) returns (job: Job)
      requires jobUuid !in jobs
      modifies this
      ensures job == NewJob(old(nextJobId), jobUuid, userId, prompt, now, retryDefault)
      ensures jobs == old(jobs)[jobUuid := job] && videos == old(videos) && nextJobId == old(nextJobId) + 1
    {
      job := NewJob(nextJobId, jobUuid, userId, prompt, now, retryDefault);
      jobs := jobs[jobUuid := job];
      nextJobId := nextJobId + 1;
    }

    /** `prisma.job.update`: replaces the row of an existing job. */
    method PutJob(job: Job)
      requires job.jobUuid in jobs
      modifies this
      ensures jobs == old(jobs)[job.jobUuid := job] && videos == old(videos) && nextJobId == old(nextJobId)
    {
      jobs := jobs[job.jobUuid := job];
    }

    /** `prisma.video.create`: appends a video with the next id. */
    method InsertVideo(userId: int, jobId: string, title: string, associatedCode: string, videoUrl: string, now: int)
      returns (video: Video)
      modifies this
      ensures video == Video(|old(videos)| + 1, userId, jobId, title, associatedCode, videoUrl, now)
      ensures videos == old(videos) + [video] && jobs == old(jobs) && nextJobId == old(nextJobId)
    {
      video := Video(|videos| + 1, userId, jobId, title, associatedCode, videoUrl, now);
      videos := videos + [video];
    }
  }
}
