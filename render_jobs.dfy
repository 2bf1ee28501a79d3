/** The render-job bookkeeping of `FFmpegService` (app/services/ffmpeg.py):
    per job an `input.json` with the request and a `status.json` record,
    here a store holding both as maps from job id. */
module RenderJobs {
  import opened Wrappers
  import opened Strings
  import opened VideoRequest

  /** The statuses the service writes. */
  datatype JobStatus = Processing | Completed | Failed

  /** How a status is written into the JSON record. */
  function StatusText(s: JobStatus): string {
    match s
    case Processing => "processing"
    case Completed => "completed"
    case Failed => "failed"
  }

  /** The content of `status.json`; times are ISO strings supplied by the caller. */
  datatype JobRecord = JobRecord(jobId: string, status: JobStatus, createdAt: string,
                                 completedAt: Option<string>, error: Option<string>,
                                 outputUrl: Option<string>)

  /** `get_job_dir`: `<cwd>/jobs/<job_id>`. */
  function JobDir(cwd: string, jobId: string): string {
    PathJoin(PathJoin(cwd, "jobs"), jobId)
  }

  function StatusPath(cwd: string, jobId: string): string {
    PathJoin(JobDir(cwd, jobId), "status.json")
  }

  function InputPath(cwd: string, jobId: string): string {
    PathJoin(JobDir(cwd, jobId), "input.json")
  }

  /** `get_output_path`: `<cwd>/jobs/<job_id>/output.mp4`. */
  function OutputPath(cwd: string, jobId: string): string {
    PathJoin(PathJoin(PathJoin(cwd, "jobs"), jobId), "output.mp4")
  }

  /** The download URL stored in a completed record. */
  function OutputUrl(jobId: string): string {
    "/jobs/" + jobId + "/output.mp4"
  }

  /** The record `save_job` writes: processing, nothing completed yet. */
  function NewRecord(jobId: string, now: string): JobRecord {
    JobRecord(jobId, Processing, now, None, None, None)
  }

  /** `update_job_status` on an existing record: the status is always
      replaced, whatever it was; completion also stamps the time and the
      output URL, failure the time and the error. */
  function WithStatus(rec: JobRecord, jobId: string, status: JobStatus, error: Option<string>, now: string): (r: JobRecord)
    ensures r.status == status && r.jobId == rec.jobId && r.createdAt == rec.createdAt
    ensures status == Processing ==> r == rec.(status := Processing)
    ensures status != Processing ==> r.completedAt == Some(now)
    ensures r.error == (if status == Failed then error else rec.error)
    ensures r.outputUrl == (if status == Completed then Some(OutputUrl(jobId)) else rec.outputUrl)
  {
    var updated := rec.(status := status);
    match status
    case Completed => updated.(completedAt := Some(now), outputUrl := Some(OutputUrl(jobId)))
    case Failed => updated.(completedAt := Some(now), error := error)
    case Processing => updated
  }

  /** What every record of the store satisfies: it names its own job, an
      output URL is the job's, a finished job has a completion time and a
      completed one an output URL. */
  predicate RecordValid(key: string, rec: JobRecord) {
    && rec.jobId == key
    && (rec.outputUrl.Some? ==> rec.outputUrl.value == OutputUrl(key))
    && (rec.status != Processing ==> rec.completedAt.Some?)
    && (rec.status == Completed ==> rec.outputUrl.Some?)
  }

  lemma {:induction false} NewRecordValid(jobId: string, now: string)
    ensures RecordValid(jobId, NewRecord(jobId, now))
  {
  }

  /** Updating keeps a record valid, whatever status it had. */
  lemma {:induction false} WithStatusValid(rec: JobRecord, jobId: string, status: JobStatus, error: Option<string>, now: string)
    requires RecordValid(jobId, rec)
    ensures RecordValid(jobId, WithStatus(rec, jobId, status, error, now))
  {
  }

  /** Repeating the same update changes nothing more. */
  lemma {:induction false} WithStatusIdempotent(rec: JobRecord, jobId: string, status: JobStatus, error: Option<string>, now: string)
    ensures var once := WithStatus(rec, jobId, status, error, now);
      WithStatus(once, jobId, status, error, now) == once
  {
  }

  /** The jobs directory: `status.json` and `input.json` per job. */
  class JobStore {
    const cwd: string
    var records: map<string, JobRecord>
    var inputs: map<string, Scene>

    predicate Valid()
      reads this
    {
      forall k :: k in records ==> RecordValid(k, records[k])
    }

    constructor(cwd: string)
      ensures this.cwd == cwd && records == map[] && inputs == map[]
      ensures Valid()
    {
      this.cwd := cwd;
      records := map[];
      inputs := map[];
    }

    /** `save_job`: store the request and a fresh processing record (replacing
      any earlier one for the id) and return the input file's path. */
    method SaveJob(request: Scene, jobId: string, now: string) returns (inputPath: string)
      modifies this
      ensures records == old(records)[jobId := NewRecord(jobId, now)]
      ensures inputs == old(inputs)[jobId := request]
      ensures inputPath == InputPath(cwd, jobId)
      ensures old(Valid()) ==> Valid()
    {
      inputPath := PathJoin(JobDir(cwd, jobId), "input.json");
      inputs := inputs[jobId := request];
      var status := JobRecord(jobId, Processing, now, None, None, None);
      records := records[jobId := status];
    }

    /** `update_job_status`: a no-op for an unknown job, otherwise a
      read-modify-write of its record. */
    method UpdateJobStatus(jobId: string, status: JobStatus, error: Option<string>, now: string)
      modifies this
      ensures jobId !in old(records) ==> records == old(records)
      ensures jobId in old(records) ==>
                records == old(records)[jobId := WithStatus(old(records)[jobId], jobId, status, error, now)]
      ensures inputs == old(inputs)
      ensures old(Valid()) ==> Valid()
    {
      if jobId !in records {
        return;
      }
      var jobStatus := records[jobId];
      jobStatus := jobStatus.(status := status);
      if status == Completed {
        jobStatus := jobStatus.(completedAt := Some(now), outputUrl := Some(OutputUrl(jobId)));
      } else if status == Failed {
        jobStatus := jobStatus.(completedAt := Some(now), error := error);
      }
      if old(Valid()) {
        WithStatusValid(records[jobId], jobId, status, error, now);
      }
      records := records[jobId := jobStatus];
    }

    /** `get_job_status`: the stored record, or None for an unknown job. */
    method GetJobStatus(jobId: string) returns (r: Option<JobRecord>)
      ensures r.Some? <==> jobId in records
      ensures r.Some? ==> r.value == records[jobId]
    {
      if jobId !in records {
        return None;
      }
      return Some(records[jobId]);
    }
  }
}
