/** The in-memory frame-job tracker of app/services/job_status.py: one
    mutable record per job, kept in a dictionary by job id. */
module FrameJobs {
  import opened Wrappers

  /** `JobStatusEnum`. */
  datatype Status = Pending | Processing | Completed | Failed

  function StatusValue(s: Status): string {
    match s
    case Pending => "pending"
    case Processing => "processing"
    case Completed => "completed"
    case Failed => "failed"
  }

  /** `JobStatusEnum(text)`: None where the enumeration raises `ValueError`. */
  function ParseStatus(text: string): (r: Option<Status>)
    ensures r.Some? ==> StatusValue(r.value) == text
  {
    if text == "pending" then Some(Pending)
    else if text == "processing" then Some(Processing)
    else if text == "completed" then Some(Completed)
    else if text == "failed" then Some(Failed)
    else None
  }

  /** Every status reads back from its value, and only the four values are
      accepted. */
  lemma {:induction false} ParseStatusValue(s: Status)
    ensures ParseStatus(StatusValue(s)) == Some(s)
  {
    match s
    case Pending =>
    case Processing =>
    case Completed =>
    case Failed =>
  }

  lemma {:induction false} ParseStatusIff(text: string)
    ensures ParseStatus(text).Some? <==> exists s :: StatusValue(s) == text
  {
    if exists s :: StatusValue(s) == text {
      var s :| StatusValue(s) == text;
      ParseStatusValue(s);
    }
  }

  /** `FrameResult`. */
  datatype FrameResult = FrameResult(id: string, success: bool, framesPath: Option<string>, error: Option<string>)

  const SomeFramesFailed := "Some frames failed to generate"

  /** The mutable part of a job record, as a value. */
  datatype Progress = Progress(status: Status, totalFrames: int, completedFrames: int,
                               results: seq<FrameResult>, updatedAt: string, error: Option<string>)

  /** `all(r.success for r in results)`. */
  predicate AllSucceeded(results: seq<FrameResult>) {
    forall i :: 0 <= i < |results| ==> results[i].success
  }

  /** The counter agrees with the results received. */
  predicate Counted(p: Progress) {
    p.completedFrames == |p.results|
  }

  /** The progress `create_job` starts from. */
  function Fresh(totalFrames: int, now: string): (p: Progress)
    ensures Counted(p) && p.status == Pending && p.results == []
  {
    Progress(Pending, totalFrames, 0, [], now, None)
  }

  /** `update_job` on an existing record. */
  function RecordFrame(p: Progress, result: FrameResult, now: string): Progress {
    var results := p.results + [result];
    var done := p.completedFrames + 1;
    var q := p.(results := results, completedFrames := done, updatedAt := now);
    if done == p.totalFrames then
      if AllSucceeded(results) then q.(status := Completed)
      else q.(status := Failed, error := Some(SomeFramesFailed))
    else q.(status := Processing)
  }

  /** `set_job_error` on an existing record. */
  function WithError(p: Progress, error: string, now: string): Progress {
    p.(status := Failed, error := Some(error), updatedAt := now)
  }

  /** `update_job_status` on an existing record with an accepted status. */
  function WithStatus(p: Progress, status: Status, now: string): Progress {
    var q := p.(status := status, updatedAt := now);
    if status == Completed then q.(completedFrames := p.totalFrames) else q
  }

  /** Recording a frame appends exactly that result and counts exactly one
      more frame, so it keeps the counter in step; the total and the
      creation-time data are untouched. */
  lemma {:induction false} RecordFrameCounts(p: Progress, result: FrameResult, now: string)
    ensures var q := RecordFrame(p, result, now);
      && q.results == p.results + [result]
      && q.completedFrames == p.completedFrames + 1
      && q.totalFrames == p.totalFrames
      && q.updatedAt == now
      && (Counted(p) ==> Counted(q))
  {
  }

  /** The status after a frame: completed exactly when the last expected
      frame arrived and every frame succeeded, failed with the fixed message
      exactly when the last expected frame arrived and one failed, and
      processing otherwise (the error is then kept). */
  lemma {:induction false} RecordFrameStatus(p: Progress, result: FrameResult, now: string)
    ensures var q := RecordFrame(p, result, now);
      && (q.status == Completed <==> q.completedFrames == q.totalFrames && AllSucceeded(q.results))
      && (q.status == Failed <==> q.completedFrames == q.totalFrames && !AllSucceeded(q.results))
      && (q.status == Processing <==> q.completedFrames != q.totalFrames)
      && q.status != Pending
      && (q.status == Failed ==> q.error == Some(SomeFramesFailed))
      && (q.status != Failed ==> q.error == p.error)
  {
  }

  /** There is no terminal state: a frame reported after the job completed
      counts past the total and puts the job back to processing. */
  lemma {:induction false} FrameAfterCompletion(p: Progress, result: FrameResult, now: string)
    requires p.status == Completed && p.completedFrames == p.totalFrames
    ensures RecordFrame(p, result, now).status == Processing
    ensures RecordFrame(p, result, now).completedFrames > RecordFrame(p, result, now).totalFrames
  {
  }

  /** An error overrides whatever status the job had and keeps the counter. */
  lemma {:induction false} WithErrorOverrides(p: Progress, error: string, now: string)
    ensures var q := WithError(p, error, now);
      q.status == Failed && q.error == Some(error) && q.results == p.results
      && q.completedFrames == p.completedFrames && (Counted(p) ==> Counted(q))
  {
  }

  /** Setting a status other than completed keeps the counter in step;
      setting completed makes the counter the total, whatever was received. */
  lemma {:induction false} WithStatusCounts(p: Progress, status: Status, now: string)
    ensures var q := WithStatus(p, status, now);
      && q.status == status && q.results == p.results
      && (status != Completed ==> q.completedFrames == p.completedFrames && (Counted(p) ==> Counted(q)))
      && (status == Completed ==> q.completedFrames == p.totalFrames)
  {
  }

  /** Marking a fresh job completed breaks the counter: no frame was
      received, yet every frame is counted. */
  lemma {:induction false} CompletedBreaksCount(now: string)
    ensures Counted(Fresh(3, now)) && !Counted(WithStatus(Fresh(3, now), Completed, now))
  {
  }

  /** `JobStatus`: one job's record, updated in place. */
  class FrameJob {
    const jobId: string
    const requestId: string
    const createdAt: string
    var status: Status
    var totalFrames: int
    var completedFrames: int
    var results: seq<FrameResult>
    var updatedAt: string
    var error: Option<string>

    function Snapshot(): Progress
      reads this
    {
      Progress(status, totalFrames, completedFrames, results, updatedAt, error)
    }

    constructor(jobId: string, requestId: string, totalFrames: int, now: string)
      ensures this.jobId == jobId && this.requestId == requestId && createdAt == now
      ensures Snapshot() == Fresh(totalFrames, now)
    {
      this.jobId := jobId;
      this.requestId := requestId;
      createdAt := now;
      status := Pending;
      this.totalFrames := totalFrames;
      completedFrames := 0;
      results := [];
      updatedAt := now;
      error := None;
    }
  }

  /** `JobStatusManager`. */
  class JobStatusManager {
    var jobs: map<string, FrameJob>

    /** No two ids share a record. */
    predicate Distinct()
      reads this
    {
      forall a, b :: a in jobs && b in jobs && a != b ==> jobs[a] != jobs[b]
    }

    constructor()
      ensures jobs == map[] && Distinct()
    {
      jobs := map[];
    }

    /** `create_job`: a fresh pending record under `jobId`, replacing any
        earlier one. */
    method CreateJob(jobId: string, requestId: string, totalFrames: int, now: string) returns (job: FrameJob)
      modifies this
      ensures fresh(job) && jobs == old(jobs)[jobId := job]
      ensures job.jobId == jobId && job.requestId == requestId && job.createdAt == now
      ensures job.Snapshot() == Fresh(totalFrames, now)
      ensures old(Distinct()) ==> Distinct()
    {
      job := new FrameJob(jobId, requestId, totalFrames, now);
      jobs := jobs[jobId := job];
    }

    /** `get_job`. */
    method GetJob(jobId: string) returns (job: Option<FrameJob>)
      ensures job.Some? <==> jobId in jobs
      ensures job.Some? ==> job.value == jobs[jobId]
    {
      if jobId in jobs {
        return Some(jobs[jobId]);
      }
      return None;
    }

    /** `update_job`: record one frame result; None and no change for an
        unknown id. */
    method UpdateJob(jobId: string, result: FrameResult, now: string) returns (job: Option<FrameJob>)
      modifies if jobId in jobs then {jobs[jobId]} else {}
      ensures job.Some? <==> jobId in jobs
      ensures job.Some? ==> job.value == jobs[jobId]
                            && job.value.Snapshot() == RecordFrame(old(job.value.Snapshot()), result, now)
    {
      if jobId !in jobs {
        return None;
      }
      var j := jobs[jobId];
      j.results := j.results + [result];
      j.completedFrames := j.completedFrames + 1;
      j.updatedAt := now;
      if j.completedFrames == j.totalFrames {
        if forall i :: 0 <= i < |j.results| ==> j.results[i].success {
          j.status := Completed;
        } else {
          j.status := Failed;
          j.error := Some(SomeFramesFailed);
        }
      } else {
        j.status := Processing;
      }
      return Some(j);
    }

    /** `set_job_error`: fail the job with the message; None and no change
        for an unknown id. */
    method SetJobError(jobId: string, error: string, now: string) returns (job: Option<FrameJob>)
      modifies if jobId in jobs then {jobs[jobId]} else {}
      ensures job.Some? <==> jobId in jobs
      ensures job.Some? ==> job.value == jobs[jobId]
                            && job.value.Snapshot() == WithError(old(job.value.Snapshot()), error, now)
    {
      if jobId !in jobs {
        return None;
      }
      var j := jobs[jobId];
      j.status := Failed;
      j.error := Some(error);
      j.updatedAt := now;
      return Some(j);
    }

    /** `update_job_status`: None and no change for an unknown id (whatever
        the text); a `ValueError` and no change for a text that is not a
        status value; otherwise the status stored, and for "completed" the
        counter set to the total. */
    method UpdateJobStatus(jobId: string, status: string, now: string) returns (job: Result<Option<FrameJob>>)
      modifies if jobId in jobs then {jobs[jobId]} else {}
      ensures jobId !in jobs ==> job == Success(None)
      ensures jobId in jobs && ParseStatus(status).None? ==>
                job.Failure? && unchanged(jobs[jobId])
      ensures jobId in jobs && ParseStatus(status).Some? ==>
                job == Success(Some(jobs[jobId]))
                && jobs[jobId].Snapshot() == WithStatus(old(jobs[jobId].Snapshot()), ParseStatus(status).value, now)
    {
      if jobId !in jobs {
        return Success(None);
      }
      var j := jobs[jobId];
      var parsed := ParseStatus(status);
      if parsed.None? {
        return Failure("ValueError: '" + status + "' is not a valid JobStatusEnum");
      }
      j.status := parsed.value;
      j.updatedAt := now;
      if status == "completed" {
        j.completedFrames := j.totalFrames;
      }
      return Success(Some(j));
    }
  }
}
