/** The clip endpoints (app/routers/clips.py): job creation, the background
    render and its outcome, and the status and download guards. */
module Clips {
  import opened Wrappers
  import opened Strings
  import opened VideoRequest
  import opened RenderJobs
  import FfmpegCommand

  /** The finished encoder process: exit code and decoded output streams. */
  datatype Completion = Completion(returnCode: int, stdout: string, stderr: string)

  /** What the outside world does during one render: the exception (its
      `str`) raised while writing each log file, the finished process or the
      exception raised starting, awaiting or decoding it, and the output file
      as found afterwards. */
  datatype RenderRun = RenderRun(commandLogError: Option<string>, process: Result<Completion>,
                                 stdoutLogError: Option<string>, stderrLogError: Option<string>,
                                 outputExists: bool, outputSize: nat)

  /** The observable steps of a render, in order. */
  datatype Effect = WriteFile(path: string, content: string) | Spawn(command: seq<string>)
                  | SetStatus(status: JobStatus, error: Option<string>)

  const EmptyOutputMessage := "FFmpeg executed successfully but output file is empty or missing"

  /** The status `render_video` stores: failed with the exception's text
      when anything raised, failed with the whole stderr text on a non-zero
      exit code, completed when the output file exists and is not empty,
      and failed with a fixed message otherwise. */
  function RenderOutcome(run: RenderRun): (JobStatus, Option<string>) {
    if run.commandLogError.Some? then (Failed, run.commandLogError)
    else if run.process.Failure? then (Failed, Some(run.process.error))
    else if run.stdoutLogError.Some? then (Failed, run.stdoutLogError)
    else if run.stderrLogError.Some? then (Failed, run.stderrLogError)
    else if run.process.value.returnCode != 0 then (Failed, Some(run.process.value.stderr))
    else if run.outputExists && run.outputSize > 0 then (Completed, None)
    else (Failed, Some(EmptyOutputMessage))
  }

  /** Nothing raised: the process ran and both logs were written. */
  predicate RanCleanly(run: RenderRun) {
    run.commandLogError.None? && run.process.Success? && run.stdoutLogError.None? && run.stderrLogError.None?
  }

  /** A render completes exactly when nothing raised, the encoder exited
      with 0 and left a non-empty output file; every other outcome is a
      failure with a message. */
  lemma {:induction false} CompletedIff(run: RenderRun)
    ensures RenderOutcome(run).0 == Completed <==>
              RanCleanly(run) && run.process.value.returnCode == 0 && run.outputExists && run.outputSize > 0
    ensures RenderOutcome(run).0 == Failed <==> RenderOutcome(run).1.Some?
  {
  }

  /** The failure message: the stderr text on a non-zero exit code, the fixed
      message for a missing or empty output after a zero exit code. */
  lemma {:induction false} FailureMessages(run: RenderRun)
    requires RanCleanly(run)
    ensures run.process.value.returnCode != 0 ==> RenderOutcome(run) == (Failed, Some(run.process.value.stderr))
    ensures run.process.value.returnCode == 0 && !(run.outputExists && run.outputSize > 0) ==>
              RenderOutcome(run) == (Failed, Some(EmptyOutputMessage))
  {
  }

  /** The steps of `render_video`: write command.log, run the encoder, write
      stdout.log and stderr.log (at the three paths given), then decide the
      status; an exception at any point skips the rest and the status is a
      failure. */
  method RenderSteps(commandLogPath: string, stdoutLogPath: string, stderrLogPath: string,
                     command: seq<string>, run: RenderRun) returns (effects: seq<Effect>)
    ensures effects != [] && effects[|effects| - 1] == SetStatus(RenderOutcome(run).0, RenderOutcome(run).1)
    ensures forall i :: 0 <= i < |effects| - 1 ==> !effects[i].SetStatus?
    ensures run.commandLogError.Some? <==> |effects| == 1
    ensures run.commandLogError.None? ==>
              |effects| >= 3 && effects[0] == WriteFile(commandLogPath, Join(command, " "))
              && effects[1] == Spawn(command)
    ensures RanCleanly(run) ==>
              |effects| == 5
              && effects[2] == WriteFile(stdoutLogPath, run.process.value.stdout)
              && effects[3] == WriteFile(stderrLogPath, run.process.value.stderr)
  {
    var commandLog := WriteFile(commandLogPath, Join(command, " "));
    if run.commandLogError.Some? {
      effects := [SetStatus(Failed, run.commandLogError)];
    } else if run.process.Failure? {
      effects := [commandLog, Spawn(command), SetStatus(Failed, Some(run.process.error))];
    } else if run.stdoutLogError.Some? {
      effects := [commandLog, Spawn(command), SetStatus(Failed, run.stdoutLogError)];
    } else {
      var completion := run.process.value;
      var stdoutLog := WriteFile(stdoutLogPath, completion.stdout);
      if run.stderrLogError.Some? {
        effects := [commandLog, Spawn(command), stdoutLog, SetStatus(Failed, run.stderrLogError)];
      } else {
        var status: JobStatus, errorMsg: Option<string>;
        if completion.returnCode != 0 {
          status, errorMsg := Failed, Some(completion.stderr);
        } else if run.outputExists && run.outputSize > 0 {
          status, errorMsg := Completed, None;
        } else {
          status, errorMsg := Failed, Some(EmptyOutputMessage);
        }
        var stderrLog := WriteFile(stderrLogPath, completion.stderr);
        effects := [commandLog, Spawn(command), stdoutLog, stderrLog, SetStatus(status, errorMsg)];
      }
    }
  }

  /** `render_video` for a job of the store: its steps, and the status they
      end with stored through `update_job_status`. */
  method RenderVideo(store: JobStore, jobId: string, command: seq<string>, run: RenderRun, now: string)
    returns (effects: seq<Effect>)
    modifies store
    ensures effects != [] && effects[|effects| - 1] == SetStatus(RenderOutcome(run).0, RenderOutcome(run).1)
    ensures run.commandLogError.None? ==>
              |effects| >= 3 && effects[0] == WriteFile(PathJoin(JobDir(store.cwd, jobId), "command.log"), Join(command, " "))
              && effects[1] == Spawn(command)
    ensures jobId !in old(store.records) ==> store.records == old(store.records)
    ensures jobId in old(store.records) ==>
              store.records == old(store.records)[jobId := WithStatus(old(store.records)[jobId], jobId,
                                                                      RenderOutcome(run).0, RenderOutcome(run).1, now)]
    ensures store.inputs == old(store.inputs)
    ensures old(store.Valid()) ==> store.Valid()
  {
    var jobDir := JobDir(store.cwd, jobId);
    effects := RenderSteps(PathJoin(jobDir, "command.log"), PathJoin(jobDir, "stdout.log"),
                           PathJoin(jobDir, "stderr.log"), command, run);
    var decision := effects[|effects| - 1];
    store.UpdateJobStatus(jobId, decision.status, decision.error, now);
  }

  /** `create_clip`: save the job (a processing record) before the command is
      compiled, then compile it and hand it to the background render; the
      reply is the saved record. When compiling raises, the request fails but
      the processing record stays behind. */
  method CreateClip(store: JobStore, request: Scene, jobId: string, now: string, show: real -> string)
    returns (response: Result<(JobRecord, seq<string>)>)
    modifies store
    ensures store.records == old(store.records)[jobId := NewRecord(jobId, now)]
    ensures store.inputs == old(store.inputs)[jobId := request]
    ensures var cmd := FfmpegCommand.Command(request, OutputPath(store.cwd, jobId), show);
      && (response.Failure? <==> cmd.Failure?)
      && (response.Failure? ==> response.error == cmd.error)
      && (response.Success? ==> response.value == (NewRecord(jobId, now), cmd.value))
  {
    var _ := store.SaveJob(request, jobId, now);
    var outputPath := OutputPath(store.cwd, jobId);
    var command := FfmpegCommand.GenerateCommand(request, outputPath, show);
    if command.Failure? {
      return Failure(command.error);
    }
    var status := store.GetJobStatus(jobId);
    response := Success((status.value, command.value));
  }

  /** The replies of the status and download endpoints. */
  datatype Reply =
    | HttpError(code: nat, detail: string)
    | JobReply(record: JobRecord)
    | VideoFile(content: string, mediaType: string, contentDisposition: string)

  /** `get_job_status` endpoint: 404 for an unknown job, otherwise its record. */
  method GetClipStatus(store: JobStore, jobId: string) returns (reply: Reply)
    ensures jobId !in store.records ==> reply == HttpError(404, "Job " + jobId + " not found")
    ensures jobId in store.records ==> reply == JobReply(store.records[jobId])
  {
    var status := store.GetJobStatus(jobId);
    if status.None? {
      return HttpError(404, "Job " + jobId + " not found");
    }
    return JobReply(status.value);
  }

  /** `download_video`: 404 for an unknown job, 400 unless it is completed,
      404 when the output file is missing, otherwise the file as an attachment.
      `files` stands for the file system. */
  method DownloadVideo(store: JobStore, jobId: string, files: map<string, string>) returns (reply: Reply)
    ensures jobId !in store.records ==> reply == HttpError(404, "Job " + jobId + " not found")
    ensures jobId in store.records && store.records[jobId].status != Completed ==>
              reply == HttpError(400, "Video not ready. Current status: " + StatusText(store.records[jobId].status))
    ensures reply.VideoFile? <==>
              jobId in store.records && store.records[jobId].status == Completed && OutputPath(store.cwd, jobId) in files
    ensures reply.VideoFile? ==>
              reply == VideoFile(files[OutputPath(store.cwd, jobId)], "video/mp4",
                                 "attachment; filename=" + Basename(OutputPath(store.cwd, jobId)))
    ensures jobId in store.records && store.records[jobId].status == Completed && OutputPath(store.cwd, jobId) !in files ==>
              reply == HttpError(404, "Video file not found")
  {
    var status := store.GetJobStatus(jobId);
    if status.None? {
      return HttpError(404, "Job " + jobId + " not found");
    }
    if status.value.status != Completed {
      return HttpError(400, "Video not ready. Current status: " + StatusText(status.value.status));
    }
    var videoPath := OutputPath(store.cwd, jobId);
    if videoPath !in files {
      return HttpError(404, "Video file not found");
    }
    var filename := Basename(videoPath);
    return VideoFile(files[videoPath], "video/mp4", "attachment; filename=" + filename);
  }
}
